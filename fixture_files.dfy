/**
 * The two fixture files the updaters rewrite, as texts: `cash-payment-test-data.ts` written
 * around the default cash record and `test-data.ts` written around the two URLs of
 * `createPaymentTestData`. Each file is a concatenation of fixed sections, shown plain piece
 * by piece, and of the values in quotes that the rewrites touch. On these texts the updaters
 * do what they are for: the rewrite for an id is the same file written for that id, the URL
 * and id checks pass, and running the updater again changes nothing.
 */
module FixtureFiles {
  import opened Wrappers
  import opened JsText
  import opened Uuid
  import opened FixtureSync
  import opened FixtureText
  import opened TestData

  // ---------------------------------------------------------------------------------------
  // The constants the files spell out
  // ---------------------------------------------------------------------------------------

  /** `HostBase` is plain. */
  lemma HostBaseIsPlainText()
    ensures Plain(HostBase)
  {
    PlainPiece(HostBase, '-', 'd');
  }

  /** `ReviewPath` is plain. */
  lemma ReviewPathIsPlainText()
    ensures Plain(ReviewPath)
  {
    PlainPiece(ReviewPath, '-', 'l');
  }

  /** `BarcodePath` is plain. */
  lemma BarcodePathIsPlainText()
    ensures Plain(BarcodePath)
  {
    PlainPiece(BarcodePath, '-', 'l');
  }

  lemma StoreSelectionPathPieces()
    ensures Plain("new-cash/3")
    ensures Plain("?only_user_info=false&overseer=true")
  {
    PlainPiece("new-cash/3", '#', 'l');
    PlainPiece("?only_user_info=false&overseer=true", '-', 'h');
  }

  /** `StoreSelectionPath` is plain. */
  lemma StoreSelectionPathIsPlainText()
    ensures Plain(StoreSelectionPath)
  {
    StoreSelectionPathPieces();
    var s0 := "new-cash/3";
    PlainAppend(s0, "?only_user_info=false&overseer=true");
    var s1 := s0 + "?only_user_info=false&overseer=true";
  }

  lemma PaymentMethodsPathPieces()
    ensures Plain("payment/change-payment-method")
    ensures Plain("?overseer=true")
  {
    PlainPiece("payment/change-payment-method", '#', 'l');
    PlainPiece("?overseer=true", '-', 'l');
  }

  /** `PaymentMethodsPath` is plain. */
  lemma PaymentMethodsPathIsPlainText()
    ensures Plain(PaymentMethodsPath)
  {
    PaymentMethodsPathPieces();
    var s0 := "payment/change-payment-method";
    PlainAppend(s0, "?overseer=true");
    var s1 := s0 + "?overseer=true";
  }

  lemma StatusPathPieces()
    ensures Plain("payment/status")
    ensures Plain("?status=APPROVED&overseer=true")
  {
    PlainPiece("payment/status", '-', 'l');
    PlainPiece("?status=APPROVED&overseer=true", '-', 'l');
  }

  /** `StatusPath` is plain. */
  lemma StatusPathIsPlainText()
    ensures Plain(StatusPath)
  {
    StatusPathPieces();
    var s0 := "payment/status";
    PlainAppend(s0, "?status=APPROVED&overseer=true");
    var s1 := s0 + "?status=APPROVED&overseer=true";
  }

  /** `CashSendAmount` is plain. */
  lemma CashSendAmountIsPlainText()
    ensures Plain(CashSendAmount)
  {
    PlainPiece(CashSendAmount, '-', 'l');
  }

  /** `CashBeneficiaryAmount` is plain. */
  lemma CashBeneficiaryAmountIsPlainText()
    ensures Plain(CashBeneficiaryAmount)
  {
    PlainPiece(CashBeneficiaryAmount, '-', 'l');
  }

  /** `CardSendAmount` is plain. */
  lemma CardSendAmountIsPlainText()
    ensures Plain(CardSendAmount)
  {
    PlainPiece(CardSendAmount, '-', 'l');
  }

  /** `CardBeneficiaryAmount` is plain. */
  lemma CardBeneficiaryAmountIsPlainText()
    ensures Plain(CardBeneficiaryAmount)
  {
    PlainPiece(CardBeneficiaryAmount, '-', 'l');
  }

  /** `Cvv` is plain. */
  lemma CvvIsPlainText()
    ensures Plain(Cvv)
  {
    PlainPiece(Cvv, '-', 'l');
  }

  /** `HomepageUrl` is plain. */
  lemma HomepageUrlIsPlainText()
    ensures Plain(HomepageUrl)
  {
    PlainPiece(HomepageUrl, '-', 'd');
  }

  /** `CashHeaderText` is plain. */
  lemma CashHeaderTextIsPlainText()
    ensures Plain(CashHeaderText)
  {
    PlainPiece(CashHeaderText, '-', 'l');
  }

  lemma CashFinalLegendPieces1()
    ensures Plain("Toma una captura para tener")
  {
    PlainPiece("Toma una captura para tener", '-', 'l');
  }

  lemma CashFinalLegendPieces2()
    ensures Plain(" el código a la mano. Recuerda que")
  {
    PlainPiece(" el código a la mano. Recuerda que", '-', 'h');
  }

  lemma CashFinalLegendPieces3()
    ensures Plain(" siempre puedes crear uno nuevo.")
  {
    PlainPiece(" siempre puedes crear uno nuevo.", '-', 'l');
  }

  /** `CashFinalLegend` is plain. */
  lemma CashFinalLegendIsPlainText()
    ensures Plain(CashFinalLegend)
  {
    CashFinalLegendPieces1();
    CashFinalLegendPieces2();
    CashFinalLegendPieces3();
    var s0 := "Toma una captura para tener";
    PlainAppend(s0, " el código a la mano. Recuerda que");
    var s1 := s0 + " el código a la mano. Recuerda que";
    PlainAppend(s1, " siempre puedes crear uno nuevo.");
    var s2 := s1 + " siempre puedes crear uno nuevo.";
  }

  lemma ExpectedHomepageTitlePieces()
    ensures Plain("Envíos de dinero en segundos")
    ensures Plain(" desde WhatsApp - Félix Pago")
  {
    PlainPiece("Envíos de dinero en segundos", '-', 'l');
    PlainPiece(" desde WhatsApp - Félix Pago", '#', 'c');
  }

  /** `ExpectedHomepageTitle` is plain. */
  lemma ExpectedHomepageTitleIsPlainText()
    ensures Plain(ExpectedHomepageTitle)
  {
    ExpectedHomepageTitlePieces();
    var s0 := "Envíos de dinero en segundos";
    PlainAppend(s0, " desde WhatsApp - Félix Pago");
    var s1 := s0 + " desde WhatsApp - Félix Pago";
  }

  // ---------------------------------------------------------------------------------------
  // The fixed sections
  // ---------------------------------------------------------------------------------------

  /** The `CashPaymentData` interface and the blank line after it. */
  const CashDataInterface :=
    "export interface CashPaymentData {" +
    "\n  orderId: string;\n  sendAmount" +
    ": string;\n  beneficiaryAmount" +
    ": string;\n  paymentReviewUrl" +
    ": string;\n  barcodeUrl: string;" +
    "\n  storeSelectionUrl: string;" +
    "\n  paymentMethodsUrl: string;\n}\n"

  /** The head of `createCashPaymentTestData` with its fixed amounts. */
  const CashDataFactory :=
    "export" +
    " const createCashPaymentTestData =" +
    " (orderId: string): CashPaymentData" +
    " => ({\n  orderId,\n  sendAmount: " +
    "'" +
    CashSendAmount +
    "',\n  beneficiaryAmount: " +
    "'" +
    CashBeneficiaryAmount +
    "',"

  /** The four template URLs of `createCashPaymentTestData`, each `UrlPrefix(orderId)` followed by its path, and the blank line after the function. */
  const CashFactoryUrls :=
    "  paymentReviewUrl: " +
    "`" +
    HostBase +
    "/${orderId}" +
    "/" +
    ReviewPath +
    "`,\n  barcodeUrl: " +
    "`" +
    HostBase +
    "/${orderId}" +
    "/" +
    BarcodePath +
    "`,\n  storeSelectionUrl: " +
    "`" +
    HostBase +
    "/${orderId}" +
    "/" +
    StoreSelectionPath +
    "`,\n  paymentMethodsUrl: " +
    "`" +
    HostBase +
    "/${orderId}" +
    "/" +
    PaymentMethodsPath +
    "`\n});\n"

  /** The comment and the declaration that open `defaultCashPaymentTestData`. */
  const CashDefaultHeader :=
    "// Default data for when order" +
    " ID is not yet available\nexport" +
    " const defaultCashPaymentTestData" +
    ": CashPaymentData = {"

  /** The end of the default record, `CashPaymentValidations` and `cashPaymentValidations`. */
  const CashValidationsSection :=
    "};\n\nexport interface" +
    " CashPaymentValidations {\n" +
    "  headerText: string;\n  finalLegend" +
    ": string;\n  codeLength: number;\n" +
    "  walgreensLogo: boolean;\n}\n\nexport" +
    " const cashPaymentValidations" +
    ": CashPaymentValidations = {" +
    "\n  headerText: " +
    "'" +
    CashHeaderText +
    "',\n  finalLegend: " +
    "'" +
    CashFinalLegend +
    "',\n  codeLength: 30," +
    "\n  walgreensLogo: true\n};\n"

  /** The `PaymentData` interface and the blank line after it. */
  const PaymentDataInterface :=
    "export interface PaymentData {" +
    "\n  orderId: string;" +
    "\n  sendAmount: string;" +
    "\n  beneficiaryAmount: string;" +
    "\n  cvv: string;\n  paymentReviewUrl" +
    ": string;\n  successUrlPattern" +
    ": string;\n  homepageUrl: string;\n}\n"

  /** `createPaymentTestData` up to its two URLs. */
  const PaymentFactoryHead :=
    "export const createPaymentTestData" +
    " = (orderId: string): PaymentData" +
    " => ({\n  orderId,\n  sendAmount: " +
    "'" +
    CardSendAmount +
    "',\n  beneficiaryAmount: " +
    "'" +
    CardBeneficiaryAmount +
    "',\n  cvv: " +
    "'" +
    Cvv +
    "',"

  /** The end of `createPaymentTestData` and the blank line after it. */
  const PaymentFactoryTail :=
    "  homepageUrl: " +
    "'" +
    HomepageUrl +
    "'\n});\n"

  /** The comment and the declaration that open `defaultPaymentTestData`. */
  const PaymentDefaultHeader :=
    "// Default data for when order" +
    " ID is not yet available\nexport" +
    " const defaultPaymentTestData" +
    ": PaymentData = {"

  /** The end of the default record and the success messages. */
  const PaymentMessagesSection :=
    "};\n" +
    "\nexport interface SuccessMessages {" +
    "\n  successTitle: string;" +
    "\n  beneficiaryMessage: string;" +
    "\n}\n\nexport const successMessages:" +
    " SuccessMessages = {\n  successTitle" +
    ": '¡Listo! Tu pago se completó" +
    " con éxito.',\n  beneficiaryMessage" +
    ": '💸 Aldo Card Card recibirá 1101" +
    " USD por tu envío de $60 USD.'\n};\n"

  /** The homepage data: its interface and `homepageData`. */
  const HomepageSection :=
    "export interface HomepageData {" +
    "\n  expectedTitle: string;" +
    "\n  expectedUrlPattern: RegExp;" +
    "\n}\n\nexport const homepageData:" +
    " HomepageData = {\n  expectedTitle: " +
    "'" +
    ExpectedHomepageTitle +
    "',\n  expectedUrlPattern: /https" +
    ":\\/\\/www\\.felixpago\\.com\\/?.*/\n}; "

  lemma CashDataInterfacePieces1()
    ensures Plain("export interface CashPaymentData {")
  {
    PlainPiece("export interface CashPaymentData {", '-', 'l');
  }

  lemma CashDataInterfacePieces2()
    ensures Plain("\n  orderId: string;\n  sendAmount")
  {
    PlainPiece("\n  orderId: string;\n  sendAmount", '-', 'l');
  }

  lemma CashDataInterfacePieces3()
    ensures Plain(": string;\n  beneficiaryAmount")
    ensures Plain(": string;\n  paymentReviewUrl")
  {
    PlainPiece(": string;\n  beneficiaryAmount", '-', 'l');
    PlainPiece(": string;\n  paymentReviewUrl", '-', 'h');
  }

  lemma CashDataInterfacePieces4()
    ensures Plain(": string;\n  barcodeUrl: string;")
    ensures Plain("\n  storeSelectionUrl: string;")
  {
    PlainPiece(": string;\n  barcodeUrl: string;", '-', 'h');
    PlainPiece("\n  storeSelectionUrl: string;", '-', 'h');
  }

  lemma CashDataInterfacePieces5()
    ensures Plain("\n  paymentMethodsUrl: string;\n}\n")
  {
    PlainPiece("\n  paymentMethodsUrl: string;\n}\n", '-', 'c');
  }

  /** `CashDataInterface` is plain. */
  lemma CashDataInterfaceIsPlainText()
    ensures Plain(CashDataInterface)
  {
    CashDataInterfacePieces1();
    CashDataInterfacePieces2();
    CashDataInterfacePieces3();
    CashDataInterfacePieces4();
    CashDataInterfacePieces5();
    var s0 := "export interface CashPaymentData {";
    PlainAppend(s0, "\n  orderId: string;\n  sendAmount");
    var s1 := s0 + "\n  orderId: string;\n  sendAmount";
    PlainAppend(s1, ": string;\n  beneficiaryAmount");
    var s2 := s1 + ": string;\n  beneficiaryAmount";
    PlainAppend(s2, ": string;\n  paymentReviewUrl");
    var s3 := s2 + ": string;\n  paymentReviewUrl";
    PlainAppend(s3, ": string;\n  barcodeUrl: string;");
    var s4 := s3 + ": string;\n  barcodeUrl: string;";
    PlainAppend(s4, "\n  storeSelectionUrl: string;");
    var s5 := s4 + "\n  storeSelectionUrl: string;";
    PlainAppend(s5, "\n  paymentMethodsUrl: string;\n}\n");
    var s6 := s5 + "\n  paymentMethodsUrl: string;\n}\n";
  }

  lemma CashDataFactoryPieces1()
    ensures Plain("export")
    ensures Plain(" const createCashPaymentTestData =")
  {
    PlainPiece("export", '-', 'l');
    PlainPiece(" const createCashPaymentTestData =", '-', 'l');
  }

  lemma CashDataFactoryPieces2()
    ensures Plain(" (orderId: string): CashPaymentData")
  {
    PlainPiece(" (orderId: string): CashPaymentData", '-', 'l');
  }

  lemma CashDataFactoryPieces3()
    ensures Plain(" => ({\n  orderId,\n  sendAmount: ")
    ensures Plain("',\n  beneficiaryAmount: ")
    ensures Plain("',")
  {
    PlainPiece(" => ({\n  orderId,\n  sendAmount: ", '-', 'l');
    PlainPiece("',\n  beneficiaryAmount: ", '-', 'l');
    PlainPiece("',", '-', 'l');
  }

  /** `CashDataFactory` is plain. */
  lemma CashDataFactoryIsPlainText()
    ensures Plain(CashDataFactory)
  {
    CashDataFactoryPieces1();
    CashDataFactoryPieces2();
    CashDataFactoryPieces3();
    CashBeneficiaryAmountIsPlainText();
    CashSendAmountIsPlainText();
    var s0 := "export";
    PlainAppend(s0, " const createCashPaymentTestData =");
    var s1 := s0 + " const createCashPaymentTestData =";
    PlainAppend(s1, " (orderId: string): CashPaymentData");
    var s2 := s1 + " (orderId: string): CashPaymentData";
    PlainAppend(s2, " => ({\n  orderId,\n  sendAmount: ");
    var s3 := s2 + " => ({\n  orderId,\n  sendAmount: ";
    PlainSplit(s3, '\'', CashSendAmount);
    var s4 := s3 + "'" + CashSendAmount;
    PlainAppend(s4, "',\n  beneficiaryAmount: ");
    var s5 := s4 + "',\n  beneficiaryAmount: ";
    PlainSplit(s5, '\'', CashBeneficiaryAmount);
    var s6 := s5 + "'" + CashBeneficiaryAmount;
    PlainAppend(s6, "',");
    var s7 := s6 + "',";
  }

  lemma CashFactoryUrlsPieces1()
    ensures Plain("  paymentReviewUrl: ")
    ensures Plain("/${orderId}")
    ensures Plain("`,\n  barcodeUrl: ")
  {
    PlainPiece("  paymentReviewUrl: ", '-', 'h');
    PlainPiece("/${orderId}", '-', 'l');
    PlainPiece("`,\n  barcodeUrl: ", '-', 'h');
  }

  lemma CashFactoryUrlsPieces2()
    ensures Plain("`,\n  storeSelectionUrl: ")
    ensures Plain("`,\n  paymentMethodsUrl: ")
    ensures Plain("`\n});\n")
  {
    PlainPiece("`,\n  storeSelectionUrl: ", '-', 'h');
    PlainPiece("`,\n  paymentMethodsUrl: ", '-', 'c');
    PlainPiece("`\n});\n", '-', 'l');
  }

  /** `CashFactoryUrls` is plain. */
  lemma CashFactoryUrlsIsPlainText()
    ensures Plain(CashFactoryUrls)
  {
    CashFactoryUrlsPieces1();
    CashFactoryUrlsPieces2();
    BarcodePathIsPlainText();
    HostBaseIsPlainText();
    PaymentMethodsPathIsPlainText();
    ReviewPathIsPlainText();
    StoreSelectionPathIsPlainText();
    var s0 := "  paymentReviewUrl: ";
    PlainSplit(s0, '`', HostBase);
    var s1 := s0 + "`" + HostBase;
    PlainAppend(s1, "/${orderId}");
    var s2 := s1 + "/${orderId}";
    PlainSplit(s2, '/', ReviewPath);
    var s3 := s2 + "/" + ReviewPath;
    PlainAppend(s3, "`,\n  barcodeUrl: ");
    var s4 := s3 + "`,\n  barcodeUrl: ";
    PlainSplit(s4, '`', HostBase);
    var s5 := s4 + "`" + HostBase;
    PlainAppend(s5, "/${orderId}");
    var s6 := s5 + "/${orderId}";
    PlainSplit(s6, '/', BarcodePath);
    var s7 := s6 + "/" + BarcodePath;
    PlainAppend(s7, "`,\n  storeSelectionUrl: ");
    var s8 := s7 + "`,\n  storeSelectionUrl: ";
    PlainSplit(s8, '`', HostBase);
    var s9 := s8 + "`" + HostBase;
    PlainAppend(s9, "/${orderId}");
    var s10 := s9 + "/${orderId}";
    PlainSplit(s10, '/', StoreSelectionPath);
    var s11 := s10 + "/" + StoreSelectionPath;
    PlainAppend(s11, "`,\n  paymentMethodsUrl: ");
    var s12 := s11 + "`,\n  paymentMethodsUrl: ";
    PlainSplit(s12, '`', HostBase);
    var s13 := s12 + "`" + HostBase;
    PlainAppend(s13, "/${orderId}");
    var s14 := s13 + "/${orderId}";
    PlainSplit(s14, '/', PaymentMethodsPath);
    var s15 := s14 + "/" + PaymentMethodsPath;
    PlainAppend(s15, "`\n});\n");
    var s16 := s15 + "`\n});\n";
  }

  lemma CashDefaultHeaderPieces1()
    ensures Plain("// Default data for when order")
  {
    PlainPiece("// Default data for when order", '-', 'c');
  }

  lemma CashDefaultHeaderPieces2()
    ensures Plain(" ID is not yet available\nexport")
  {
    PlainPiece(" ID is not yet available\nexport", '-', 'h');
  }

  lemma CashDefaultHeaderPieces3()
    ensures Plain(" const defaultCashPaymentTestData")
    ensures Plain(": CashPaymentData = {")
  {
    PlainPiece(" const defaultCashPaymentTestData", '-', 'r');
    PlainPiece(": CashPaymentData = {", '-', 'l');
  }

  /** `CashDefaultHeader` is plain. */
  lemma CashDefaultHeaderIsPlainText()
    ensures Plain(CashDefaultHeader)
  {
    CashDefaultHeaderPieces1();
    CashDefaultHeaderPieces2();
    CashDefaultHeaderPieces3();
    var s0 := "// Default data for when order";
    PlainAppend(s0, " ID is not yet available\nexport");
    var s1 := s0 + " ID is not yet available\nexport";
    PlainAppend(s1, " const defaultCashPaymentTestData");
    var s2 := s1 + " const defaultCashPaymentTestData";
    PlainAppend(s2, ": CashPaymentData = {");
    var s3 := s2 + ": CashPaymentData = {";
  }

  lemma CashValidationsSectionPieces1()
    ensures Plain("};\n\nexport interface")
    ensures Plain(" CashPaymentValidations {\n")
  {
    PlainPiece("};\n\nexport interface", '-', 'l');
    PlainPiece(" CashPaymentValidations {\n", '-', 'c');
  }

  lemma CashValidationsSectionPieces2()
    ensures Plain("  headerText: string;\n  finalLegend")
  {
    PlainPiece("  headerText: string;\n  finalLegend", '-', 'c');
  }

  lemma CashValidationsSectionPieces3()
    ensures Plain(": string;\n  codeLength: number;\n")
  {
    PlainPiece(": string;\n  codeLength: number;\n", '-', 'l');
  }

  lemma CashValidationsSectionPieces4()
    ensures Plain("  walgreensLogo: boolean;\n}\n\nexport")
  {
    PlainPiece("  walgreensLogo: boolean;\n}\n\nexport", '-', 'h');
  }

  lemma CashValidationsSectionPieces5()
    ensures Plain(" const cashPaymentValidations")
    ensures Plain(": CashPaymentValidations = {")
  {
    PlainPiece(" const cashPaymentValidations", '-', 'r');
    PlainPiece(": CashPaymentValidations = {", '-', 'c');
  }

  lemma CashValidationsSectionPieces6()
    ensures Plain("\n  headerText: ")
    ensures Plain("',\n  finalLegend: ")
    ensures Plain("',\n  codeLength: 30,")
  {
    PlainPiece("\n  headerText: ", '-', 'l');
    PlainPiece("',\n  finalLegend: ", '-', 'h');
    PlainPiece("',\n  codeLength: 30,", '-', 'l');
  }

  lemma CashValidationsSectionPieces7()
    ensures Plain("\n  walgreensLogo: true\n};\n")
  {
    PlainPiece("\n  walgreensLogo: true\n};\n", '-', 'h');
  }

  /** `CashValidationsSection` is plain. */
  lemma CashValidationsSectionIsPlainText()
    ensures Plain(CashValidationsSection)
  {
    CashValidationsSectionPieces1();
    CashValidationsSectionPieces2();
    CashValidationsSectionPieces3();
    CashValidationsSectionPieces4();
    CashValidationsSectionPieces5();
    CashValidationsSectionPieces6();
    CashValidationsSectionPieces7();
    CashFinalLegendIsPlainText();
    CashHeaderTextIsPlainText();
    var s0 := "};\n\nexport interface";
    PlainAppend(s0, " CashPaymentValidations {\n");
    var s1 := s0 + " CashPaymentValidations {\n";
    PlainAppend(s1, "  headerText: string;\n  finalLegend");
    var s2 := s1 + "  headerText: string;\n  finalLegend";
    PlainAppend(s2, ": string;\n  codeLength: number;\n");
    var s3 := s2 + ": string;\n  codeLength: number;\n";
    PlainAppend(s3, "  walgreensLogo: boolean;\n}\n\nexport");
    var s4 := s3 + "  walgreensLogo: boolean;\n}\n\nexport";
    PlainAppend(s4, " const cashPaymentValidations");
    var s5 := s4 + " const cashPaymentValidations";
    PlainAppend(s5, ": CashPaymentValidations = {");
    var s6 := s5 + ": CashPaymentValidations = {";
    PlainAppend(s6, "\n  headerText: ");
    var s7 := s6 + "\n  headerText: ";
    PlainSplit(s7, '\'', CashHeaderText);
    var s8 := s7 + "'" + CashHeaderText;
    PlainAppend(s8, "',\n  finalLegend: ");
    var s9 := s8 + "',\n  finalLegend: ";
    PlainSplit(s9, '\'', CashFinalLegend);
    var s10 := s9 + "'" + CashFinalLegend;
    PlainAppend(s10, "',\n  codeLength: 30,");
    var s11 := s10 + "',\n  codeLength: 30,";
    PlainAppend(s11, "\n  walgreensLogo: true\n};\n");
    var s12 := s11 + "\n  walgreensLogo: true\n};\n";
  }

  lemma PaymentDataInterfacePieces1()
    ensures Plain("export interface PaymentData {")
    ensures Plain("\n  orderId: string;")
  {
    PlainPiece("export interface PaymentData {", '-', 'l');
    PlainPiece("\n  orderId: string;", '-', 'l');
  }

  lemma PaymentDataInterfacePieces2()
    ensures Plain("\n  sendAmount: string;")
    ensures Plain("\n  beneficiaryAmount: string;")
  {
    PlainPiece("\n  sendAmount: string;", '-', 'l');
    PlainPiece("\n  beneficiaryAmount: string;", '-', 'l');
  }

  lemma PaymentDataInterfacePieces3()
    ensures Plain("\n  cvv: string;\n  paymentReviewUrl")
  {
    PlainPiece("\n  cvv: string;\n  paymentReviewUrl", '-', 'h');
  }

  lemma PaymentDataInterfacePieces4()
    ensures Plain(": string;\n  successUrlPattern")
  {
    PlainPiece(": string;\n  successUrlPattern", '-', 'h');
  }

  lemma PaymentDataInterfacePieces5()
    ensures Plain(": string;\n  homepageUrl: string;\n}\n")
  {
    PlainPiece(": string;\n  homepageUrl: string;\n}\n", '-', 'd');
  }

  /** `PaymentDataInterface` is plain. */
  lemma PaymentDataInterfaceIsPlainText()
    ensures Plain(PaymentDataInterface)
  {
    PaymentDataInterfacePieces1();
    PaymentDataInterfacePieces2();
    PaymentDataInterfacePieces3();
    PaymentDataInterfacePieces4();
    PaymentDataInterfacePieces5();
    var s0 := "export interface PaymentData {";
    PlainAppend(s0, "\n  orderId: string;");
    var s1 := s0 + "\n  orderId: string;";
    PlainAppend(s1, "\n  sendAmount: string;");
    var s2 := s1 + "\n  sendAmount: string;";
    PlainAppend(s2, "\n  beneficiaryAmount: string;");
    var s3 := s2 + "\n  beneficiaryAmount: string;";
    PlainAppend(s3, "\n  cvv: string;\n  paymentReviewUrl");
    var s4 := s3 + "\n  cvv: string;\n  paymentReviewUrl";
    PlainAppend(s4, ": string;\n  successUrlPattern");
    var s5 := s4 + ": string;\n  successUrlPattern";
    PlainAppend(s5, ": string;\n  homepageUrl: string;\n}\n");
    var s6 := s5 + ": string;\n  homepageUrl: string;\n}\n";
  }

  lemma PaymentFactoryHeadPieces1()
    ensures Plain("export const createPaymentTestData")
  {
    PlainPiece("export const createPaymentTestData", '-', 'l');
  }

  lemma PaymentFactoryHeadPieces2()
    ensures Plain(" = (orderId: string): PaymentData")
  {
    PlainPiece(" = (orderId: string): PaymentData", '-', 'l');
  }

  lemma PaymentFactoryHeadPieces3()
    ensures Plain(" => ({\n  orderId,\n  sendAmount: ")
    ensures Plain("',\n  beneficiaryAmount: ")
  {
    PlainPiece(" => ({\n  orderId,\n  sendAmount: ", '-', 'l');
    PlainPiece("',\n  beneficiaryAmount: ", '-', 'l');
  }

  lemma PaymentFactoryHeadPieces4()
    ensures Plain("',\n  cvv: ")
    ensures Plain("',")
  {
    PlainPiece("',\n  cvv: ", '-', 'l');
    PlainPiece("',", '-', 'l');
  }

  /** `PaymentFactoryHead` is plain. */
  lemma PaymentFactoryHeadIsPlainText()
    ensures Plain(PaymentFactoryHead)
  {
    PaymentFactoryHeadPieces1();
    PaymentFactoryHeadPieces2();
    PaymentFactoryHeadPieces3();
    PaymentFactoryHeadPieces4();
    CardBeneficiaryAmountIsPlainText();
    CardSendAmountIsPlainText();
    CvvIsPlainText();
    var s0 := "export const createPaymentTestData";
    PlainAppend(s0, " = (orderId: string): PaymentData");
    var s1 := s0 + " = (orderId: string): PaymentData";
    PlainAppend(s1, " => ({\n  orderId,\n  sendAmount: ");
    var s2 := s1 + " => ({\n  orderId,\n  sendAmount: ";
    PlainSplit(s2, '\'', CardSendAmount);
    var s3 := s2 + "'" + CardSendAmount;
    PlainAppend(s3, "',\n  beneficiaryAmount: ");
    var s4 := s3 + "',\n  beneficiaryAmount: ";
    PlainSplit(s4, '\'', CardBeneficiaryAmount);
    var s5 := s4 + "'" + CardBeneficiaryAmount;
    PlainAppend(s5, "',\n  cvv: ");
    var s6 := s5 + "',\n  cvv: ";
    PlainSplit(s6, '\'', Cvv);
    var s7 := s6 + "'" + Cvv;
    PlainAppend(s7, "',");
    var s8 := s7 + "',";
  }

  lemma PaymentFactoryTailPieces()
    ensures Plain("  homepageUrl: ")
    ensures Plain("'\n});\n")
  {
    PlainPiece("  homepageUrl: ", '-', 'd');
    PlainPiece("'\n});\n", '-', 'l');
  }

  /** `PaymentFactoryTail` is plain. */
  lemma PaymentFactoryTailIsPlainText()
    ensures Plain(PaymentFactoryTail)
  {
    PaymentFactoryTailPieces();
    HomepageUrlIsPlainText();
    var s0 := "  homepageUrl: ";
    PlainSplit(s0, '\'', HomepageUrl);
    var s1 := s0 + "'" + HomepageUrl;
    PlainAppend(s1, "'\n});\n");
    var s2 := s1 + "'\n});\n";
  }

  lemma PaymentDefaultHeaderPieces1()
    ensures Plain("// Default data for when order")
  {
    PlainPiece("// Default data for when order", '-', 'c');
  }

  lemma PaymentDefaultHeaderPieces2()
    ensures Plain(" ID is not yet available\nexport")
    ensures Plain(" const defaultPaymentTestData")
  {
    PlainPiece(" ID is not yet available\nexport", '-', 'h');
    PlainPiece(" const defaultPaymentTestData", '-', 'h');
  }

  lemma PaymentDefaultHeaderPieces3()
    ensures Plain(": PaymentData = {")
  {
    PlainPiece(": PaymentData = {", '-', 'l');
  }

  /** `PaymentDefaultHeader` is plain. */
  lemma PaymentDefaultHeaderIsPlainText()
    ensures Plain(PaymentDefaultHeader)
  {
    PaymentDefaultHeaderPieces1();
    PaymentDefaultHeaderPieces2();
    PaymentDefaultHeaderPieces3();
    var s0 := "// Default data for when order";
    PlainAppend(s0, " ID is not yet available\nexport");
    var s1 := s0 + " ID is not yet available\nexport";
    PlainAppend(s1, " const defaultPaymentTestData");
    var s2 := s1 + " const defaultPaymentTestData";
    PlainAppend(s2, ": PaymentData = {");
    var s3 := s2 + ": PaymentData = {";
  }

  lemma PaymentMessagesSectionPieces1()
    ensures Plain("};\n")
    ensures Plain("\nexport interface SuccessMessages {")
  {
    PlainPiece("};\n", '-', 'l');
    PlainPiece("\nexport interface SuccessMessages {", '-', 'l');
  }

  lemma PaymentMessagesSectionPieces2()
    ensures Plain("\n  successTitle: string;")
    ensures Plain("\n  beneficiaryMessage: string;")
  {
    PlainPiece("\n  successTitle: string;", '-', 'h');
    PlainPiece("\n  beneficiaryMessage: string;", '-', 'l');
  }

  lemma PaymentMessagesSectionPieces3()
    ensures Plain("\n}\n\nexport const successMessages:")
  {
    PlainPiece("\n}\n\nexport const successMessages:", '-', 'l');
  }

  lemma PaymentMessagesSectionPieces4()
    ensures Plain(" SuccessMessages = {\n  successTitle")
  {
    PlainPiece(" SuccessMessages = {\n  successTitle", '-', 'h');
  }

  lemma PaymentMessagesSectionPieces5()
    ensures Plain(": '¡Listo! Tu pago se completó")
  {
    PlainPiece(": '¡Listo! Tu pago se completó", '-', 'h');
  }

  lemma PaymentMessagesSectionPieces6()
    ensures Plain(" con éxito.',\n  beneficiaryMessage")
  {
    PlainPiece(" con éxito.',\n  beneficiaryMessage", '-', 'l');
  }

  lemma PaymentMessagesSectionPieces7()
    ensures Plain(": '💸 Aldo Card Card recibirá 1101")
  {
    PlainPiece(": '💸 Aldo Card Card recibirá 1101", '-', 'h');
  }

  lemma PaymentMessagesSectionPieces8()
    ensures Plain(" USD por tu envío de $60 USD.'\n};\n")
  {
    PlainPiece(" USD por tu envío de $60 USD.'\n};\n", '-', 'l');
  }

  /** `PaymentMessagesSection` is plain. */
  lemma PaymentMessagesSectionIsPlainText()
    ensures Plain(PaymentMessagesSection)
  {
    PaymentMessagesSectionPieces1();
    PaymentMessagesSectionPieces2();
    PaymentMessagesSectionPieces3();
    PaymentMessagesSectionPieces4();
    PaymentMessagesSectionPieces5();
    PaymentMessagesSectionPieces6();
    PaymentMessagesSectionPieces7();
    PaymentMessagesSectionPieces8();
    var s0 := "};\n";
    PlainAppend(s0, "\nexport interface SuccessMessages {");
    var s1 := s0 + "\nexport interface SuccessMessages {";
    PlainAppend(s1, "\n  successTitle: string;");
    var s2 := s1 + "\n  successTitle: string;";
    PlainAppend(s2, "\n  beneficiaryMessage: string;");
    var s3 := s2 + "\n  beneficiaryMessage: string;";
    PlainAppend(s3, "\n}\n\nexport const successMessages:");
    var s4 := s3 + "\n}\n\nexport const successMessages:";
    PlainAppend(s4, " SuccessMessages = {\n  successTitle");
    var s5 := s4 + " SuccessMessages = {\n  successTitle";
    PlainAppend(s5, ": '¡Listo! Tu pago se completó");
    var s6 := s5 + ": '¡Listo! Tu pago se completó";
    PlainAppend(s6, " con éxito.',\n  beneficiaryMessage");
    var s7 := s6 + " con éxito.',\n  beneficiaryMessage";
    PlainAppend(s7, ": '💸 Aldo Card Card recibirá 1101");
    var s8 := s7 + ": '💸 Aldo Card Card recibirá 1101";
    PlainAppend(s8, " USD por tu envío de $60 USD.'\n};\n");
    var s9 := s8 + " USD por tu envío de $60 USD.'\n};\n";
  }

  lemma HomepageSectionPieces1()
    ensures Plain("export interface HomepageData {")
    ensures Plain("\n  expectedTitle: string;")
  {
    PlainPiece("export interface HomepageData {", '-', 'l');
    PlainPiece("\n  expectedTitle: string;", '-', 'h');
  }

  lemma HomepageSectionPieces2()
    ensures Plain("\n  expectedUrlPattern: RegExp;")
    ensures Plain("\n}\n\nexport const homepageData:")
  {
    PlainPiece("\n  expectedUrlPattern: RegExp;", '-', 'h');
    PlainPiece("\n}\n\nexport const homepageData:", '-', 'l');
  }

  lemma HomepageSectionPieces3()
    ensures Plain(" HomepageData = {\n  expectedTitle: ")
  {
    PlainPiece(" HomepageData = {\n  expectedTitle: ", '-', 'h');
  }

  lemma HomepageSectionPieces4()
    ensures Plain("',\n  expectedUrlPattern: /https")
  {
    PlainPiece("',\n  expectedUrlPattern: /https", '-', 'o');
  }

  lemma HomepageSectionPieces5()
    ensures Plain(":\\/\\/www\\.felixpago\\.com\\/?.*/\n}; ")
  {
    PlainPiece(":\\/\\/www\\.felixpago\\.com\\/?.*/\n}; ", '-', 'h');
  }

  /** `HomepageSection` is plain. */
  lemma HomepageSectionIsPlainText()
    ensures Plain(HomepageSection)
  {
    HomepageSectionPieces1();
    HomepageSectionPieces2();
    HomepageSectionPieces3();
    HomepageSectionPieces4();
    HomepageSectionPieces5();
    ExpectedHomepageTitleIsPlainText();
    var s0 := "export interface HomepageData {";
    PlainAppend(s0, "\n  expectedTitle: string;");
    var s1 := s0 + "\n  expectedTitle: string;";
    PlainAppend(s1, "\n  expectedUrlPattern: RegExp;");
    var s2 := s1 + "\n  expectedUrlPattern: RegExp;";
    PlainAppend(s2, "\n}\n\nexport const homepageData:");
    var s3 := s2 + "\n}\n\nexport const homepageData:";
    PlainAppend(s3, " HomepageData = {\n  expectedTitle: ");
    var s4 := s3 + " HomepageData = {\n  expectedTitle: ";
    PlainSplit(s4, '\'', ExpectedHomepageTitle);
    var s5 := s4 + "'" + ExpectedHomepageTitle;
    PlainAppend(s5, "',\n  expectedUrlPattern: /https");
    var s6 := s5 + "',\n  expectedUrlPattern: /https";
    PlainAppend(s6, ":\\/\\/www\\.felixpago\\.com\\/?.*/\n}; ");
    var s7 := s6 + ":\\/\\/www\\.felixpago\\.com\\/?.*/\n}; ";
  }

  // ---------------------------------------------------------------------------------------
  // The files
  // ---------------------------------------------------------------------------------------

  /** A card record in the form of `defaultPaymentTestData`: plain values and the two
      `placeholder` URLs. */
  ghost predicate PlaceholderRecord(d: PaymentData)
  {
    && Plain(d.orderId) && Plain(d.sendAmount) && Plain(d.beneficiaryAmount) && Plain(d.cvv)
    && d.paymentReviewUrl == PlaceholderUrl(ReviewPath) && d.successUrlPattern == PlaceholderUrl(StatusPath)
    && Plain(d.homepageUrl)
  }

  lemma DefaultPaymentIsPlaceholderRecord()
    ensures PlaceholderRecord(DefaultPaymentTestData)
  {
    PlainPiece([], 'k', 'k');
    CardSendAmountIsPlainText();
    CardBeneficiaryAmountIsPlainText();
    CvvIsPlainText();
    HomepageUrlIsPlainText();
  }

  /** The paths of the two `placeholder` URLs hold no `k`, no dash and no `l`. */
  lemma PlaceholderPaths()
    ensures NoK(ReviewPath) && '-' !in ReviewPath && 'l' !in ReviewPath
    ensures NoK(StatusPath) && '-' !in StatusPath && 'l' !in StatusPath
  {
    ReviewPathIsPlainText();
    StatusPathIsPlainText();
    ReviewPathLacksDashAndL();
    StatusPathLacksDashAndL();
  }

  lemma ReviewPathLacksDashAndL()
    ensures '-' !in ReviewPath && 'l' !in ReviewPath
  {
    assert forall k :: 0 <= k < |ReviewPath| ==> ReviewPath[k] != '-' && ReviewPath[k] != 'l';
  }

  lemma StatusPathLacksDashAndL()
    ensures '-' !in StatusPath && 'l' !in StatusPath
  {
    assert forall k :: 0 <= k < |StatusPath| ==> StatusPath[k] != '-' && StatusPath[k] != 'l';
  }

  /** The properties of a cash record as `defaultCashPaymentTestData` writes them, one per line, every value in quotes. */
  function CashProperties(d: CashPaymentData): string
  {
    Join([
      Property("orderId", '\'', d.orderId, true),
      Property("sendAmount", '\'', d.sendAmount, true),
      Property("beneficiaryAmount", '\'', d.beneficiaryAmount, true),
      Property("paymentReviewUrl", '\'', d.paymentReviewUrl, true),
      Property("barcodeUrl", '\'', d.barcodeUrl, true),
      Property("storeSelectionUrl", '\'', d.storeSelectionUrl, true),
      Property("paymentMethodsUrl", '\'', d.paymentMethodsUrl, false)
    ])
  }

  lemma CashPropertiesPieces1()
    ensures Plain("orderId")
    ensures Plain("sendAmount")
    ensures Plain("beneficiaryAmount")
    ensures Plain("paymentReviewUrl")
    ensures Plain("barcodeUrl")
  {
    PlainPiece("orderId", '-', 'l');
    PlainPiece("sendAmount", '-', 'l');
    PlainPiece("beneficiaryAmount", '-', 'l');
    PlainPiece("paymentReviewUrl", '-', 'h');
    PlainPiece("barcodeUrl", '-', 'h');
  }

  lemma CashPropertiesPieces2()
    ensures Plain("storeSelectionUrl")
    ensures Plain("paymentMethodsUrl")
  {
    PlainPiece("storeSelectionUrl", '-', 'h');
    PlainPiece("paymentMethodsUrl", '-', 'c');
  }

  lemma CashPropertiesShapePart1(n0: string, v0: string, n1: string, v1: string, n2: string, v2: string, n3: string, u3: string, q3: string, n4: string, u4: string, q4: string, n5: string, u5: string, q5: string, n6: string, u6: string, q6: string, id: string)
    requires IsUuid(id)
    requires Plain(n0) && IsUuid(v0) && Plain(n1)
    requires Plain(v1) && Plain(n2) && Plain(v2)
    ensures FitsBetween([Property(n0, '\'', v0, true), Property(n1, '\'', v1, true), Property(n2, '\'', v2, true), Property(n3, '\'', UrlPrefix(u3) + q3, true), Property(n4, '\'', UrlPrefix(u4) + q4, true), Property(n5, '\'', UrlPrefix(u5) + q5, true), Property(n6, '\'', UrlPrefix(u6) + q6, false)],
                        [Property(n0, '\'', id, true), Property(n1, '\'', v1, true), Property(n2, '\'', v2, true), Property(n3, '\'', UrlPrefix(id) + q3, true), Property(n4, '\'', UrlPrefix(id) + q4, true), Property(n5, '\'', UrlPrefix(id) + q5, true), Property(n6, '\'', UrlPrefix(id) + q6, false)],
                        id, [0, 0, 0, 1, 1, 1, 1], [0, 0, 0, 0, 0, 0, 0], 0, 3)
  {
    Cuts(id);
    var ts := [Property(n0, '\'', v0, true), Property(n1, '\'', v1, true), Property(n2, '\'', v2, true), Property(n3, '\'', UrlPrefix(u3) + q3, true), Property(n4, '\'', UrlPrefix(u4) + q4, true), Property(n5, '\'', UrlPrefix(u5) + q5, true), Property(n6, '\'', UrlPrefix(u6) + q6, false)];
    var rs := [Property(n0, '\'', id, true), Property(n1, '\'', v1, true), Property(n2, '\'', v2, true), Property(n3, '\'', UrlPrefix(id) + q3, true), Property(n4, '\'', UrlPrefix(id) + q4, true), Property(n5, '\'', UrlPrefix(id) + q5, true), Property(n6, '\'', UrlPrefix(id) + q6, false)];
    var urls: seq<nat>, placeholders: seq<nat> := [0, 0, 0, 1, 1, 1, 1], [0, 0, 0, 0, 0, 0, 0];
    forall j | 0 <= j < 3 ensures Fits(ts[j], rs[j], id, urls[j], placeholders[j]) {
      if j == 0 {
        FitsUuidProperty(n0, '\'', true, v0, id);
      } else if j == 1 {
        FitsPlainProperty(n1, '\'', true, v1, id);
      } else if j == 2 {
        FitsPlainProperty(n2, '\'', true, v2, id);
      }
    }
  }

  lemma CashPropertiesShapePart2(n0: string, v0: string, n1: string, v1: string, n2: string, v2: string, n3: string, u3: string, q3: string, n4: string, u4: string, q4: string, n5: string, u5: string, q5: string, n6: string, u6: string, q6: string, id: string)
    requires IsUuid(id)
    requires Plain(n3) && IsUuid(u3) && Plain(q3) && |q3| < 68 && Plain(n4)
    requires IsUuid(u4) && Plain(q4) && |q4| < 68 && Plain(n5) && IsUuid(u5) && Plain(q5) && |q5| < 68
    ensures FitsBetween([Property(n0, '\'', v0, true), Property(n1, '\'', v1, true), Property(n2, '\'', v2, true), Property(n3, '\'', UrlPrefix(u3) + q3, true), Property(n4, '\'', UrlPrefix(u4) + q4, true), Property(n5, '\'', UrlPrefix(u5) + q5, true), Property(n6, '\'', UrlPrefix(u6) + q6, false)],
                        [Property(n0, '\'', id, true), Property(n1, '\'', v1, true), Property(n2, '\'', v2, true), Property(n3, '\'', UrlPrefix(id) + q3, true), Property(n4, '\'', UrlPrefix(id) + q4, true), Property(n5, '\'', UrlPrefix(id) + q5, true), Property(n6, '\'', UrlPrefix(id) + q6, false)],
                        id, [0, 0, 0, 1, 1, 1, 1], [0, 0, 0, 0, 0, 0, 0], 3, 6)
  {
    Cuts(id);
    var ts := [Property(n0, '\'', v0, true), Property(n1, '\'', v1, true), Property(n2, '\'', v2, true), Property(n3, '\'', UrlPrefix(u3) + q3, true), Property(n4, '\'', UrlPrefix(u4) + q4, true), Property(n5, '\'', UrlPrefix(u5) + q5, true), Property(n6, '\'', UrlPrefix(u6) + q6, false)];
    var rs := [Property(n0, '\'', id, true), Property(n1, '\'', v1, true), Property(n2, '\'', v2, true), Property(n3, '\'', UrlPrefix(id) + q3, true), Property(n4, '\'', UrlPrefix(id) + q4, true), Property(n5, '\'', UrlPrefix(id) + q5, true), Property(n6, '\'', UrlPrefix(id) + q6, false)];
    var urls: seq<nat>, placeholders: seq<nat> := [0, 0, 0, 1, 1, 1, 1], [0, 0, 0, 0, 0, 0, 0];
    forall j | 3 <= j < 6 ensures Fits(ts[j], rs[j], id, urls[j], placeholders[j]) {
      if j == 3 {
        FitsUrlProperty(n3, '\'', true, u3, q3, id);
      } else if j == 4 {
        FitsUrlProperty(n4, '\'', true, u4, q4, id);
      } else if j == 5 {
        FitsUrlProperty(n5, '\'', true, u5, q5, id);
      }
    }
  }

  lemma CashPropertiesShapePart3(n0: string, v0: string, n1: string, v1: string, n2: string, v2: string, n3: string, u3: string, q3: string, n4: string, u4: string, q4: string, n5: string, u5: string, q5: string, n6: string, u6: string, q6: string, id: string)
    requires IsUuid(id)
    requires Plain(n6) && IsUuid(u6) && Plain(q6) && |q6| < 68
    ensures FitsBetween([Property(n0, '\'', v0, true), Property(n1, '\'', v1, true), Property(n2, '\'', v2, true), Property(n3, '\'', UrlPrefix(u3) + q3, true), Property(n4, '\'', UrlPrefix(u4) + q4, true), Property(n5, '\'', UrlPrefix(u5) + q5, true), Property(n6, '\'', UrlPrefix(u6) + q6, false)],
                        [Property(n0, '\'', id, true), Property(n1, '\'', v1, true), Property(n2, '\'', v2, true), Property(n3, '\'', UrlPrefix(id) + q3, true), Property(n4, '\'', UrlPrefix(id) + q4, true), Property(n5, '\'', UrlPrefix(id) + q5, true), Property(n6, '\'', UrlPrefix(id) + q6, false)],
                        id, [0, 0, 0, 1, 1, 1, 1], [0, 0, 0, 0, 0, 0, 0], 6, 7)
  {
    Cuts(id);
    var ts := [Property(n0, '\'', v0, true), Property(n1, '\'', v1, true), Property(n2, '\'', v2, true), Property(n3, '\'', UrlPrefix(u3) + q3, true), Property(n4, '\'', UrlPrefix(u4) + q4, true), Property(n5, '\'', UrlPrefix(u5) + q5, true), Property(n6, '\'', UrlPrefix(u6) + q6, false)];
    var rs := [Property(n0, '\'', id, true), Property(n1, '\'', v1, true), Property(n2, '\'', v2, true), Property(n3, '\'', UrlPrefix(id) + q3, true), Property(n4, '\'', UrlPrefix(id) + q4, true), Property(n5, '\'', UrlPrefix(id) + q5, true), Property(n6, '\'', UrlPrefix(id) + q6, false)];
    var urls: seq<nat>, placeholders: seq<nat> := [0, 0, 0, 1, 1, 1, 1], [0, 0, 0, 0, 0, 0, 0];
    forall j | 6 <= j < 7 ensures Fits(ts[j], rs[j], id, urls[j], placeholders[j]) {
      if j == 6 {
        FitsUrlProperty(n6, '\'', false, u6, q6, id);
      }
    }
  }

  /** Texts of the shape of `CashProperties` fit if their parts do. */
  lemma CashPropertiesShape(n0: string, v0: string, n1: string, v1: string, n2: string, v2: string, n3: string, u3: string, q3: string, n4: string, u4: string, q4: string, n5: string, u5: string, q5: string, n6: string, u6: string, q6: string, id: string)
    requires IsUuid(id)
    requires Plain(n0) && IsUuid(v0) && Plain(n1)
    requires Plain(v1) && Plain(n2) && Plain(v2)
    requires Plain(n3) && IsUuid(u3) && Plain(q3) && |q3| < 68 && Plain(n4)
    requires IsUuid(u4) && Plain(q4) && |q4| < 68 && Plain(n5) && IsUuid(u5) && Plain(q5) && |q5| < 68
    requires Plain(n6) && IsUuid(u6) && Plain(q6) && |q6| < 68
    ensures Fits(Join([Property(n0, '\'', v0, true), Property(n1, '\'', v1, true), Property(n2, '\'', v2, true), Property(n3, '\'', UrlPrefix(u3) + q3, true), Property(n4, '\'', UrlPrefix(u4) + q4, true), Property(n5, '\'', UrlPrefix(u5) + q5, true), Property(n6, '\'', UrlPrefix(u6) + q6, false)]),
                 Join([Property(n0, '\'', id, true), Property(n1, '\'', v1, true), Property(n2, '\'', v2, true), Property(n3, '\'', UrlPrefix(id) + q3, true), Property(n4, '\'', UrlPrefix(id) + q4, true), Property(n5, '\'', UrlPrefix(id) + q5, true), Property(n6, '\'', UrlPrefix(id) + q6, false)]), id, 4, 0)
  {
    var ts := [Property(n0, '\'', v0, true), Property(n1, '\'', v1, true), Property(n2, '\'', v2, true), Property(n3, '\'', UrlPrefix(u3) + q3, true), Property(n4, '\'', UrlPrefix(u4) + q4, true), Property(n5, '\'', UrlPrefix(u5) + q5, true), Property(n6, '\'', UrlPrefix(u6) + q6, false)];
    var rs := [Property(n0, '\'', id, true), Property(n1, '\'', v1, true), Property(n2, '\'', v2, true), Property(n3, '\'', UrlPrefix(id) + q3, true), Property(n4, '\'', UrlPrefix(id) + q4, true), Property(n5, '\'', UrlPrefix(id) + q5, true), Property(n6, '\'', UrlPrefix(id) + q6, false)];
    var urls: seq<nat>, placeholders: seq<nat> := [0, 0, 0, 1, 1, 1, 1], [0, 0, 0, 0, 0, 0, 0];
    CashPropertiesShapePart1(n0, v0, n1, v1, n2, v2, n3, u3, q3, n4, u4, q4, n5, u5, q5, n6, u6, q6, id);
    CashPropertiesShapePart2(n0, v0, n1, v1, n2, v2, n3, u3, q3, n4, u4, q4, n5, u5, q5, n6, u6, q6, id);
    FitsBetweenGlue(ts, rs, id, urls, placeholders, 0, 3, 6);
    CashPropertiesShapePart3(n0, v0, n1, v1, n2, v2, n3, u3, q3, n4, u4, q4, n5, u5, q5, n6, u6, q6, id);
    FitsBetweenGlue(ts, rs, id, urls, placeholders, 0, 6, 7);
    FitsBetweenAll(ts, rs, id, urls, placeholders);
    FitsJoin(ts, rs, id, urls, placeholders);
  }

  /** In the record built for `u` the UUID pass for `id` turns the id and the four URLs into those of the record built for `id`; the amounts stay. */
  lemma CashPropertiesFit(u: string, id: string)
    requires IsUuid(u) && IsUuid(id)
    ensures Fits(CashProperties(CreateCashPaymentTestData(u)), CashProperties(CreateCashPaymentTestData(id)), id, 4, 0)
  {
    var a := CreateCashPaymentTestData(u);
    var b := CreateCashPaymentTestData(id);
    CashPropertiesPieces1();
    CashPropertiesPieces2();
    assert a.orderId == u && b.orderId == id;
    CashSendAmountIsPlainText();
    assert a.sendAmount == CashSendAmount && b.sendAmount == CashSendAmount;
    CashBeneficiaryAmountIsPlainText();
    assert a.beneficiaryAmount == CashBeneficiaryAmount && b.beneficiaryAmount == CashBeneficiaryAmount;
    ReviewPathIsPlainText();
    assert a.paymentReviewUrl == UrlPrefix(u) + ReviewPath && b.paymentReviewUrl == UrlPrefix(id) + ReviewPath;
    BarcodePathIsPlainText();
    assert a.barcodeUrl == UrlPrefix(u) + BarcodePath && b.barcodeUrl == UrlPrefix(id) + BarcodePath;
    StoreSelectionPathIsPlainText();
    assert a.storeSelectionUrl == UrlPrefix(u) + StoreSelectionPath && b.storeSelectionUrl == UrlPrefix(id) + StoreSelectionPath;
    PaymentMethodsPathIsPlainText();
    assert a.paymentMethodsUrl == UrlPrefix(u) + PaymentMethodsPath && b.paymentMethodsUrl == UrlPrefix(id) + PaymentMethodsPath;
    CashPropertiesShape(
      "orderId", u, "sendAmount",
      a.sendAmount, "beneficiaryAmount", a.beneficiaryAmount,
      "paymentReviewUrl", u, ReviewPath,
      "barcodeUrl", u, BarcodePath,
      "storeSelectionUrl", u, StoreSelectionPath,
      "paymentMethodsUrl", u, PaymentMethodsPath,
      id);
  }

  /** The properties of a card record as `defaultPaymentTestData` writes them, one per line, every value in quotes. */
  function PaymentProperties(d: PaymentData): string
  {
    Join([
      Property("orderId", '\'', d.orderId, true),
      Property("sendAmount", '\'', d.sendAmount, true),
      Property("beneficiaryAmount", '\'', d.beneficiaryAmount, true),
      Property("cvv", '\'', d.cvv, true),
      Property("paymentReviewUrl", '\'', d.paymentReviewUrl, true),
      Property("successUrlPattern", '\'', d.successUrlPattern, true),
      Property("homepageUrl", '\'', d.homepageUrl, false)
    ])
  }

  lemma PaymentPropertiesPieces1()
    ensures Plain("orderId")
    ensures Plain("sendAmount")
    ensures Plain("beneficiaryAmount")
    ensures Plain("cvv")
    ensures Plain("paymentReviewUrl")
  {
    PlainPiece("orderId", '-', 'l');
    PlainPiece("sendAmount", '-', 'l');
    PlainPiece("beneficiaryAmount", '-', 'l');
    PlainPiece("cvv", '-', 'l');
    PlainPiece("paymentReviewUrl", '-', 'h');
  }

  lemma PaymentPropertiesPieces2()
    ensures Plain("successUrlPattern")
    ensures Plain("homepageUrl")
  {
    PlainPiece("successUrlPattern", '-', 'h');
    PlainPiece("homepageUrl", '-', 'd');
  }

  lemma PaymentPropertiesShapePart1(n0: string, v0: string, n1: string, v1: string, n2: string, v2: string, n3: string, v3: string, n4: string, q4: string, n5: string, q5: string, n6: string, v6: string, id: string)
    requires IsUuid(id)
    requires Plain(n0) && Plain(v0) && Plain(n1)
    requires Plain(v1) && Plain(n2) && Plain(v2)
    ensures FitsBetween([Property(n0, '\'', v0, true), Property(n1, '\'', v1, true), Property(n2, '\'', v2, true), Property(n3, '\'', v3, true), Property(n4, '\'', PlaceholderUrl(q4), true), Property(n5, '\'', PlaceholderUrl(q5), true), Property(n6, '\'', v6, false)],
                        [Property(n0, '\'', v0, true), Property(n1, '\'', v1, true), Property(n2, '\'', v2, true), Property(n3, '\'', v3, true), Property(n4, '\'', PlaceholderUrl(q4), true), Property(n5, '\'', PlaceholderUrl(q5), true), Property(n6, '\'', v6, false)],
                        id, [0, 0, 0, 0, 0, 0, 0], [0, 0, 0, 0, 1, 1, 0], 0, 3)
  {
    Cuts(id);
    var ts := [Property(n0, '\'', v0, true), Property(n1, '\'', v1, true), Property(n2, '\'', v2, true), Property(n3, '\'', v3, true), Property(n4, '\'', PlaceholderUrl(q4), true), Property(n5, '\'', PlaceholderUrl(q5), true), Property(n6, '\'', v6, false)];
    var rs := [Property(n0, '\'', v0, true), Property(n1, '\'', v1, true), Property(n2, '\'', v2, true), Property(n3, '\'', v3, true), Property(n4, '\'', PlaceholderUrl(q4), true), Property(n5, '\'', PlaceholderUrl(q5), true), Property(n6, '\'', v6, false)];
    var urls: seq<nat>, placeholders: seq<nat> := [0, 0, 0, 0, 0, 0, 0], [0, 0, 0, 0, 1, 1, 0];
    forall j | 0 <= j < 3 ensures Fits(ts[j], rs[j], id, urls[j], placeholders[j]) {
      if j == 0 {
        FitsPlainProperty(n0, '\'', true, v0, id);
      } else if j == 1 {
        FitsPlainProperty(n1, '\'', true, v1, id);
      } else if j == 2 {
        FitsPlainProperty(n2, '\'', true, v2, id);
      }
    }
  }

  lemma PaymentPropertiesShapePart2(n0: string, v0: string, n1: string, v1: string, n2: string, v2: string, n3: string, v3: string, n4: string, q4: string, n5: string, q5: string, n6: string, v6: string, id: string)
    requires IsUuid(id)
    requires Plain(n3) && Plain(v3) && Plain(n4)
    requires NoK(q4) && '-' !in q4 && 'l' !in q4 && Plain(n5) && NoK(q5) && '-' !in q5 && 'l' !in q5
    ensures FitsBetween([Property(n0, '\'', v0, true), Property(n1, '\'', v1, true), Property(n2, '\'', v2, true), Property(n3, '\'', v3, true), Property(n4, '\'', PlaceholderUrl(q4), true), Property(n5, '\'', PlaceholderUrl(q5), true), Property(n6, '\'', v6, false)],
                        [Property(n0, '\'', v0, true), Property(n1, '\'', v1, true), Property(n2, '\'', v2, true), Property(n3, '\'', v3, true), Property(n4, '\'', PlaceholderUrl(q4), true), Property(n5, '\'', PlaceholderUrl(q5), true), Property(n6, '\'', v6, false)],
                        id, [0, 0, 0, 0, 0, 0, 0], [0, 0, 0, 0, 1, 1, 0], 3, 6)
  {
    Cuts(id);
    var ts := [Property(n0, '\'', v0, true), Property(n1, '\'', v1, true), Property(n2, '\'', v2, true), Property(n3, '\'', v3, true), Property(n4, '\'', PlaceholderUrl(q4), true), Property(n5, '\'', PlaceholderUrl(q5), true), Property(n6, '\'', v6, false)];
    var rs := [Property(n0, '\'', v0, true), Property(n1, '\'', v1, true), Property(n2, '\'', v2, true), Property(n3, '\'', v3, true), Property(n4, '\'', PlaceholderUrl(q4), true), Property(n5, '\'', PlaceholderUrl(q5), true), Property(n6, '\'', v6, false)];
    var urls: seq<nat>, placeholders: seq<nat> := [0, 0, 0, 0, 0, 0, 0], [0, 0, 0, 0, 1, 1, 0];
    forall j | 3 <= j < 6 ensures Fits(ts[j], rs[j], id, urls[j], placeholders[j]) {
      if j == 3 {
        FitsPlainProperty(n3, '\'', true, v3, id);
      } else if j == 4 {
        FitsPlaceholderProperty(n4, '\'', true, q4, id);
      } else if j == 5 {
        FitsPlaceholderProperty(n5, '\'', true, q5, id);
      }
    }
  }

  lemma PaymentPropertiesShapePart3(n0: string, v0: string, n1: string, v1: string, n2: string, v2: string, n3: string, v3: string, n4: string, q4: string, n5: string, q5: string, n6: string, v6: string, id: string)
    requires IsUuid(id)
    requires Plain(n6) && Plain(v6)
    ensures FitsBetween([Property(n0, '\'', v0, true), Property(n1, '\'', v1, true), Property(n2, '\'', v2, true), Property(n3, '\'', v3, true), Property(n4, '\'', PlaceholderUrl(q4), true), Property(n5, '\'', PlaceholderUrl(q5), true), Property(n6, '\'', v6, false)],
                        [Property(n0, '\'', v0, true), Property(n1, '\'', v1, true), Property(n2, '\'', v2, true), Property(n3, '\'', v3, true), Property(n4, '\'', PlaceholderUrl(q4), true), Property(n5, '\'', PlaceholderUrl(q5), true), Property(n6, '\'', v6, false)],
                        id, [0, 0, 0, 0, 0, 0, 0], [0, 0, 0, 0, 1, 1, 0], 6, 7)
  {
    Cuts(id);
    var ts := [Property(n0, '\'', v0, true), Property(n1, '\'', v1, true), Property(n2, '\'', v2, true), Property(n3, '\'', v3, true), Property(n4, '\'', PlaceholderUrl(q4), true), Property(n5, '\'', PlaceholderUrl(q5), true), Property(n6, '\'', v6, false)];
    var rs := [Property(n0, '\'', v0, true), Property(n1, '\'', v1, true), Property(n2, '\'', v2, true), Property(n3, '\'', v3, true), Property(n4, '\'', PlaceholderUrl(q4), true), Property(n5, '\'', PlaceholderUrl(q5), true), Property(n6, '\'', v6, false)];
    var urls: seq<nat>, placeholders: seq<nat> := [0, 0, 0, 0, 0, 0, 0], [0, 0, 0, 0, 1, 1, 0];
    forall j | 6 <= j < 7 ensures Fits(ts[j], rs[j], id, urls[j], placeholders[j]) {
      if j == 6 {
        FitsPlainProperty(n6, '\'', false, v6, id);
      }
    }
  }

  /** Texts of the shape of `PaymentProperties` fit if their parts do. */
  lemma PaymentPropertiesShape(n0: string, v0: string, n1: string, v1: string, n2: string, v2: string, n3: string, v3: string, n4: string, q4: string, n5: string, q5: string, n6: string, v6: string, id: string)
    requires IsUuid(id)
    requires Plain(n0) && Plain(v0) && Plain(n1)
    requires Plain(v1) && Plain(n2) && Plain(v2)
    requires Plain(n3) && Plain(v3) && Plain(n4)
    requires NoK(q4) && '-' !in q4 && 'l' !in q4 && Plain(n5) && NoK(q5) && '-' !in q5 && 'l' !in q5
    requires Plain(n6) && Plain(v6)
    ensures Fits(Join([Property(n0, '\'', v0, true), Property(n1, '\'', v1, true), Property(n2, '\'', v2, true), Property(n3, '\'', v3, true), Property(n4, '\'', PlaceholderUrl(q4), true), Property(n5, '\'', PlaceholderUrl(q5), true), Property(n6, '\'', v6, false)]),
                 Join([Property(n0, '\'', v0, true), Property(n1, '\'', v1, true), Property(n2, '\'', v2, true), Property(n3, '\'', v3, true), Property(n4, '\'', PlaceholderUrl(q4), true), Property(n5, '\'', PlaceholderUrl(q5), true), Property(n6, '\'', v6, false)]), id, 0, 2)
  {
    var ts := [Property(n0, '\'', v0, true), Property(n1, '\'', v1, true), Property(n2, '\'', v2, true), Property(n3, '\'', v3, true), Property(n4, '\'', PlaceholderUrl(q4), true), Property(n5, '\'', PlaceholderUrl(q5), true), Property(n6, '\'', v6, false)];
    var rs := [Property(n0, '\'', v0, true), Property(n1, '\'', v1, true), Property(n2, '\'', v2, true), Property(n3, '\'', v3, true), Property(n4, '\'', PlaceholderUrl(q4), true), Property(n5, '\'', PlaceholderUrl(q5), true), Property(n6, '\'', v6, false)];
    var urls: seq<nat>, placeholders: seq<nat> := [0, 0, 0, 0, 0, 0, 0], [0, 0, 0, 0, 1, 1, 0];
    PaymentPropertiesShapePart1(n0, v0, n1, v1, n2, v2, n3, v3, n4, q4, n5, q5, n6, v6, id);
    PaymentPropertiesShapePart2(n0, v0, n1, v1, n2, v2, n3, v3, n4, q4, n5, q5, n6, v6, id);
    FitsBetweenGlue(ts, rs, id, urls, placeholders, 0, 3, 6);
    PaymentPropertiesShapePart3(n0, v0, n1, v1, n2, v2, n3, v3, n4, q4, n5, q5, n6, v6, id);
    FitsBetweenGlue(ts, rs, id, urls, placeholders, 0, 6, 7);
    FitsBetweenAll(ts, rs, id, urls, placeholders);
    FitsJoin(ts, rs, id, urls, placeholders);
  }

  /** A card record of placeholder form holds no UUID: the pass leaves it as it is, with its two `placeholder` URLs. */
  lemma PaymentPropertiesFit(d: PaymentData, id: string)
    requires PlaceholderRecord(d) && IsUuid(id)
    ensures Fits(PaymentProperties(d), PaymentProperties(d), id, 0, 2)
  {
    PlaceholderPaths();
    PaymentPropertiesPieces1();
    PaymentPropertiesPieces2();
    PaymentPropertiesShape(
      "orderId", d.orderId, "sendAmount",
      d.sendAmount, "beneficiaryAmount", d.beneficiaryAmount,
      "cvv", d.cvv, "paymentReviewUrl",
      ReviewPath, "successUrlPattern", StatusPath,
      "homepageUrl", d.homepageUrl,
      id);
  }

  /** `cash-payment-test-data.ts` with the cash record `d` as its default record. */
  function CashFixtureText(d: CashPaymentData): string
  {
    Join([
      CashDataInterface,
      CashDataFactory,
      CashFactoryUrls,
      CashDefaultHeader,
      CashProperties(d),
      CashValidationsSection
    ])
  }

  lemma CashFixtureTextShapePart1(p0: string, p1: string, p2: string, p3: string, t4: string, r4: string, p5: string, id: string)
    requires IsUuid(id)
    requires Plain(p0) && Plain(p1) && Plain(p2)
    ensures FitsBetween([p0, p1, p2, p3, t4, p5],
                        [p0, p1, p2, p3, r4, p5],
                        id, [0, 0, 0, 0, 4, 0], [0, 0, 0, 0, 0, 0], 0, 3)
  {
    Cuts(id);
    var ts := [p0, p1, p2, p3, t4, p5];
    var rs := [p0, p1, p2, p3, r4, p5];
    var urls: seq<nat>, placeholders: seq<nat> := [0, 0, 0, 0, 4, 0], [0, 0, 0, 0, 0, 0];
    forall j | 0 <= j < 3 ensures Fits(ts[j], rs[j], id, urls[j], placeholders[j]) {
      if j == 0 {
        FitsPlain(p0, id);
      } else if j == 1 {
        FitsPlain(p1, id);
      } else if j == 2 {
        FitsPlain(p2, id);
      }
    }
  }

  lemma CashFixtureTextShapePart2(p0: string, p1: string, p2: string, p3: string, t4: string, r4: string, p5: string, id: string)
    requires IsUuid(id)
    requires Plain(p3) && Fits(t4, r4, id, 4, 0) && Plain(p5)
    ensures FitsBetween([p0, p1, p2, p3, t4, p5],
                        [p0, p1, p2, p3, r4, p5],
                        id, [0, 0, 0, 0, 4, 0], [0, 0, 0, 0, 0, 0], 3, 6)
  {
    Cuts(id);
    var ts := [p0, p1, p2, p3, t4, p5];
    var rs := [p0, p1, p2, p3, r4, p5];
    var urls: seq<nat>, placeholders: seq<nat> := [0, 0, 0, 0, 4, 0], [0, 0, 0, 0, 0, 0];
    forall j | 3 <= j < 6 ensures Fits(ts[j], rs[j], id, urls[j], placeholders[j]) {
      if j == 3 {
        FitsPlain(p3, id);
      } else if j == 5 {
        FitsPlain(p5, id);
      }
    }
  }

  /** Texts of the shape of `CashFixtureText` fit if their parts do. */
  lemma CashFixtureTextShape(p0: string, p1: string, p2: string, p3: string, t4: string, r4: string, p5: string, id: string)
    requires IsUuid(id)
    requires Plain(p0) && Plain(p1) && Plain(p2)
    requires Plain(p3) && Fits(t4, r4, id, 4, 0) && Plain(p5)
    ensures Fits(Join([p0, p1, p2, p3, t4, p5]),
                 Join([p0, p1, p2, p3, r4, p5]), id, 4, 0)
  {
    var ts := [p0, p1, p2, p3, t4, p5];
    var rs := [p0, p1, p2, p3, r4, p5];
    var urls: seq<nat>, placeholders: seq<nat> := [0, 0, 0, 0, 4, 0], [0, 0, 0, 0, 0, 0];
    CashFixtureTextShapePart1(p0, p1, p2, p3, t4, r4, p5, id);
    CashFixtureTextShapePart2(p0, p1, p2, p3, t4, r4, p5, id);
    FitsBetweenGlue(ts, rs, id, urls, placeholders, 0, 3, 6);
    FitsBetweenAll(ts, rs, id, urls, placeholders);
    FitsJoin(ts, rs, id, urls, placeholders);
  }

  /** The UUID pass for `id` turns the file written for `u` into the file written for `id`, with four payment URLs for `id` and no `placeholder`. */
  lemma CashFixtureFits(u: string, id: string)
    requires IsUuid(u) && IsUuid(id)
    ensures Fits(CashFixtureText(CreateCashPaymentTestData(u)), CashFixtureText(CreateCashPaymentTestData(id)), id, 4, 0)
  {
    CashDataInterfaceIsPlainText();
    CashDataFactoryIsPlainText();
    CashFactoryUrlsIsPlainText();
    CashDefaultHeaderIsPlainText();
    CashPropertiesFit(u, id);
    CashValidationsSectionIsPlainText();
    CashFixtureTextShape(
      CashDataInterface, CashDataFactory, CashFactoryUrls,
      CashDefaultHeader, CashProperties(CreateCashPaymentTestData(u)), CashProperties(CreateCashPaymentTestData(id)),
      CashValidationsSection,
      id);
  }

  /** `createPaymentTestData` with `reviewUrl` and `successUrl` as the URLs it returns. */
  function PaymentFactory(reviewUrl: string, successUrl: string): string
  {
    Join([
      PaymentFactoryHead,
      Property("paymentReviewUrl", '`', reviewUrl, true),
      Property("successUrlPattern", '`', successUrl, true),
      PaymentFactoryTail
    ])
  }

  lemma PaymentFactoryPieces()
    ensures Plain("paymentReviewUrl")
    ensures Plain("successUrlPattern")
  {
    PlainPiece("paymentReviewUrl", '-', 'h');
    PlainPiece("successUrlPattern", '-', 'h');
  }

  lemma PaymentFactoryShapePart1(p0: string, n1: string, u1: string, q1: string, n2: string, u2: string, q2: string, p3: string, id: string)
    requires IsUuid(id)
    requires Plain(p0) && Plain(n1) && IsUuid(u1) && Plain(q1) && |q1| < 68
    requires Plain(n2) && IsUuid(u2) && Plain(q2) && |q2| < 68
    ensures FitsBetween([p0, Property(n1, '`', UrlPrefix(u1) + q1, true), Property(n2, '`', UrlPrefix(u2) + q2, true), p3],
                        [p0, Property(n1, '`', UrlPrefix(id) + q1, true), Property(n2, '`', UrlPrefix(id) + q2, true), p3],
                        id, [0, 1, 1, 0], [0, 0, 0, 0], 0, 3)
  {
    Cuts(id);
    var ts := [p0, Property(n1, '`', UrlPrefix(u1) + q1, true), Property(n2, '`', UrlPrefix(u2) + q2, true), p3];
    var rs := [p0, Property(n1, '`', UrlPrefix(id) + q1, true), Property(n2, '`', UrlPrefix(id) + q2, true), p3];
    var urls: seq<nat>, placeholders: seq<nat> := [0, 1, 1, 0], [0, 0, 0, 0];
    forall j | 0 <= j < 3 ensures Fits(ts[j], rs[j], id, urls[j], placeholders[j]) {
      if j == 0 {
        FitsPlain(p0, id);
      } else if j == 1 {
        FitsUrlProperty(n1, '`', true, u1, q1, id);
      } else if j == 2 {
        FitsUrlProperty(n2, '`', true, u2, q2, id);
      }
    }
  }

  lemma PaymentFactoryShapePart2(p0: string, n1: string, u1: string, q1: string, n2: string, u2: string, q2: string, p3: string, id: string)
    requires IsUuid(id)
    requires Plain(p3)
    ensures FitsBetween([p0, Property(n1, '`', UrlPrefix(u1) + q1, true), Property(n2, '`', UrlPrefix(u2) + q2, true), p3],
                        [p0, Property(n1, '`', UrlPrefix(id) + q1, true), Property(n2, '`', UrlPrefix(id) + q2, true), p3],
                        id, [0, 1, 1, 0], [0, 0, 0, 0], 3, 4)
  {
    Cuts(id);
    var ts := [p0, Property(n1, '`', UrlPrefix(u1) + q1, true), Property(n2, '`', UrlPrefix(u2) + q2, true), p3];
    var rs := [p0, Property(n1, '`', UrlPrefix(id) + q1, true), Property(n2, '`', UrlPrefix(id) + q2, true), p3];
    var urls: seq<nat>, placeholders: seq<nat> := [0, 1, 1, 0], [0, 0, 0, 0];
    forall j | 3 <= j < 4 ensures Fits(ts[j], rs[j], id, urls[j], placeholders[j]) {
      if j == 3 {
        FitsPlain(p3, id);
      }
    }
  }

  /** Texts of the shape of `PaymentFactory` fit if their parts do. */
  lemma PaymentFactoryShape(p0: string, n1: string, u1: string, q1: string, n2: string, u2: string, q2: string, p3: string, id: string)
    requires IsUuid(id)
    requires Plain(p0) && Plain(n1) && IsUuid(u1) && Plain(q1) && |q1| < 68
    requires Plain(n2) && IsUuid(u2) && Plain(q2) && |q2| < 68 && Plain(p3)
    ensures Fits(Join([p0, Property(n1, '`', UrlPrefix(u1) + q1, true), Property(n2, '`', UrlPrefix(u2) + q2, true), p3]),
                 Join([p0, Property(n1, '`', UrlPrefix(id) + q1, true), Property(n2, '`', UrlPrefix(id) + q2, true), p3]), id, 2, 0)
  {
    var ts := [p0, Property(n1, '`', UrlPrefix(u1) + q1, true), Property(n2, '`', UrlPrefix(u2) + q2, true), p3];
    var rs := [p0, Property(n1, '`', UrlPrefix(id) + q1, true), Property(n2, '`', UrlPrefix(id) + q2, true), p3];
    var urls: seq<nat>, placeholders: seq<nat> := [0, 1, 1, 0], [0, 0, 0, 0];
    PaymentFactoryShapePart1(p0, n1, u1, q1, n2, u2, q2, p3, id);
    PaymentFactoryShapePart2(p0, n1, u1, q1, n2, u2, q2, p3, id);
    FitsBetweenGlue(ts, rs, id, urls, placeholders, 0, 3, 4);
    FitsBetweenAll(ts, rs, id, urls, placeholders);
    FitsJoin(ts, rs, id, urls, placeholders);
  }

  /** The UUID pass for `id` puts `id` into both URLs of `createPaymentTestData`. */
  lemma PaymentFactoryFits(r: string, s: string, id: string)
    requires IsUuid(r) && IsUuid(s) && IsUuid(id)
    ensures Fits(PaymentFactory(UrlPrefix(r) + ReviewPath, UrlPrefix(s) + StatusPath), PaymentFactory(UrlPrefix(id) + ReviewPath, UrlPrefix(id) + StatusPath), id, 2, 0)
  {
    PaymentFactoryPieces();
    PaymentFactoryHeadIsPlainText();
    ReviewPathIsPlainText();
    StatusPathIsPlainText();
    PaymentFactoryTailIsPlainText();
    PaymentFactoryShape(
      PaymentFactoryHead, "paymentReviewUrl", r,
      ReviewPath, "successUrlPattern", s,
      StatusPath, PaymentFactoryTail,
      id);
  }

  /** `test-data.ts` with `reviewUrl` and `successUrl` as the URLs `createPaymentTestData` returns and `d` as its default record. */
  function PaymentFixtureText(reviewUrl: string, successUrl: string, d: PaymentData): string
  {
    Join([
      PaymentDataInterface,
      PaymentFactory(reviewUrl, successUrl),
      PaymentDefaultHeader,
      PaymentProperties(d),
      PaymentMessagesSection,
      HomepageSection
    ])
  }

  lemma PaymentFixtureTextShapePart1(p0: string, t1: string, r1: string, p2: string, t3: string, r3: string, p4: string, p5: string, id: string)
    requires IsUuid(id)
    requires Plain(p0) && Fits(t1, r1, id, 2, 0) && Plain(p2)
    ensures FitsBetween([p0, t1, p2, t3, p4, p5],
                        [p0, r1, p2, r3, p4, p5],
                        id, [0, 2, 0, 0, 0, 0], [0, 0, 0, 2, 0, 0], 0, 3)
  {
    Cuts(id);
    var ts := [p0, t1, p2, t3, p4, p5];
    var rs := [p0, r1, p2, r3, p4, p5];
    var urls: seq<nat>, placeholders: seq<nat> := [0, 2, 0, 0, 0, 0], [0, 0, 0, 2, 0, 0];
    forall j | 0 <= j < 3 ensures Fits(ts[j], rs[j], id, urls[j], placeholders[j]) {
      if j == 0 {
        FitsPlain(p0, id);
      } else if j == 2 {
        FitsPlain(p2, id);
      }
    }
  }

  lemma PaymentFixtureTextShapePart2(p0: string, t1: string, r1: string, p2: string, t3: string, r3: string, p4: string, p5: string, id: string)
    requires IsUuid(id)
    requires Fits(t3, r3, id, 0, 2) && Plain(p4) && Plain(p5)
    ensures FitsBetween([p0, t1, p2, t3, p4, p5],
                        [p0, r1, p2, r3, p4, p5],
                        id, [0, 2, 0, 0, 0, 0], [0, 0, 0, 2, 0, 0], 3, 6)
  {
    Cuts(id);
    var ts := [p0, t1, p2, t3, p4, p5];
    var rs := [p0, r1, p2, r3, p4, p5];
    var urls: seq<nat>, placeholders: seq<nat> := [0, 2, 0, 0, 0, 0], [0, 0, 0, 2, 0, 0];
    forall j | 3 <= j < 6 ensures Fits(ts[j], rs[j], id, urls[j], placeholders[j]) {
      if j == 4 {
        FitsPlain(p4, id);
      } else if j == 5 {
        FitsPlain(p5, id);
      }
    }
  }

  /** Texts of the shape of `PaymentFixtureText` fit if their parts do. */
  lemma PaymentFixtureTextShape(p0: string, t1: string, r1: string, p2: string, t3: string, r3: string, p4: string, p5: string, id: string)
    requires IsUuid(id)
    requires Plain(p0) && Fits(t1, r1, id, 2, 0) && Plain(p2)
    requires Fits(t3, r3, id, 0, 2) && Plain(p4) && Plain(p5)
    ensures Fits(Join([p0, t1, p2, t3, p4, p5]),
                 Join([p0, r1, p2, r3, p4, p5]), id, 2, 2)
  {
    var ts := [p0, t1, p2, t3, p4, p5];
    var rs := [p0, r1, p2, r3, p4, p5];
    var urls: seq<nat>, placeholders: seq<nat> := [0, 2, 0, 0, 0, 0], [0, 0, 0, 2, 0, 0];
    PaymentFixtureTextShapePart1(p0, t1, r1, p2, t3, r3, p4, p5, id);
    PaymentFixtureTextShapePart2(p0, t1, r1, p2, t3, r3, p4, p5, id);
    FitsBetweenGlue(ts, rs, id, urls, placeholders, 0, 3, 6);
    FitsBetweenAll(ts, rs, id, urls, placeholders);
    FitsJoin(ts, rs, id, urls, placeholders);
  }

  /** The UUID pass for `id` puts `id` into both URLs of `createPaymentTestData` and leaves the rest, the two `placeholder` URLs of the default record included. */
  lemma PaymentFixtureFits(r: string, s: string, d: PaymentData, id: string)
    requires IsUuid(r) && IsUuid(s) && PlaceholderRecord(d) && IsUuid(id)
    ensures Fits(PaymentFixtureText(UrlPrefix(r) + ReviewPath, UrlPrefix(s) + StatusPath, d), PaymentFixtureText(UrlPrefix(id) + ReviewPath, UrlPrefix(id) + StatusPath, d), id, 2, 2)
  {
    PaymentDataInterfaceIsPlainText();
    PaymentFactoryFits(r, s, id);
    PaymentDefaultHeaderIsPlainText();
    PaymentPropertiesFit(d, id);
    PaymentMessagesSectionIsPlainText();
    HomepageSectionIsPlainText();
    PaymentFixtureTextShape(
      PaymentDataInterface, PaymentFactory(UrlPrefix(r) + ReviewPath, UrlPrefix(s) + StatusPath), PaymentFactory(UrlPrefix(id) + ReviewPath, UrlPrefix(id) + StatusPath),
      PaymentDefaultHeader, PaymentProperties(d), PaymentProperties(d),
      PaymentMessagesSection, HomepageSection,
      id);
  }

}
