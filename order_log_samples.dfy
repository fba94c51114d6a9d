/**
 * The texts the order-creation step prints, as the repository's scripts reproduce them: the
 * simulated log of the order-update script, and the sample outputs that its extraction checks
 * feed to `extractOrderId`. Each text is put together from short pieces, and the facts about
 * it follow from the shape lemmas of `OrderIdExtraction`.
 */
module OrderLogSamples {
  import opened Wrappers
  import opened JsText
  import opened Uuid
  import opened OrderIdExtraction

  // -------------------------------------------------------------------------------------
  // Pieces of the printed report
  // -------------------------------------------------------------------------------------

  const Rule := "================"
  /** The 32 `=` framing the success banner. */
  const Banner := Rule + Rule
  const SuccessHeading := "\U{1F3AF} ORDER " + "CREATION SUCCESSFUL"
  const CreatedLine := "\U{2705} Order created " + "successfully!"
  const WorkflowLabel := "Workflow ID: "

  /** `🚀 Starting <kind>order creation...` */
  function StartingLine(kind: string): string
  {
    "\U{1F680} Starting " + kind + "order creation..."
  }

  /** `📊 Result: <open>"orderId": "<id>"<rest>` */
  function ResultLine(open: string, id: string, rest: string): string
  {
    "\U{1F4CA} Result: " + open + JsonPrefix + " \"" + id + "\"" + rest
  }

  /** `  "key": "value",` of the pretty-printed order data. */
  function StringField(key: string, value: string): string
  {
    "  \"" + key + "\": \"" + value + "\","
  }

  /** The last field, without the trailing comma. */
  function LastStringField(key: string, value: string): string
  {
    "  \"" + key + "\": \"" + value + "\""
  }

  /** `  "key": 60,` */
  function NumberField(key: string, number: string): string
  {
    "  \"" + key + "\": " + number + ","
  }

  // -------------------------------------------------------------------------------------
  // What a line can feed
  // -------------------------------------------------------------------------------------

  predicate NoLineFeed(line: string)
  {
    '\n' !in line
  }

  predicate NoJson(line: string)
  {
    JsonCandidate(line).None?
  }

  /** Neither label pass takes anything from the line. */
  predicate NoLabel(line: string)
  {
    LabelCandidate(line).None? && LooseLabelCandidate(line).None?
  }

  /** A line that feeds no pass and does not break the split into lines. */
  predicate Quiet(line: string)
  {
    NoLineFeed(line) && NoJson(line) && NoLabel(line)
  }

  predicate Each(lines: seq<string>, p: string -> bool)
  {
    forall j :: 0 <= j < |lines| ==> p(lines[j])
  }

  lemma EachAppend(a: seq<string>, b: seq<string>, p: string -> bool)
    requires Each(a, p) && Each(b, p)
    ensures Each(a + b, p)
  {
    forall j | 0 <= j < |a + b| ensures p((a + b)[j]) {
      if j < |a| { assert (a + b)[j] == a[j]; } else { assert (a + b)[j] == b[j - |a|]; }
    }
  }

  lemma QuietEach(lines: seq<string>)
    requires Each(lines, Quiet)
    ensures Each(lines, NoLineFeed) && Each(lines, NoJson) && Each(lines, NoLabel)
  {
  }

  /** `s` holds no double quote, no line feed and no `c`. */
  predicate Clean(s: string, c: char)
  {
    forall k :: 0 <= k < |s| ==> s[k] != '"' && s[k] != '\n' && s[k] != c
  }

  lemma CleanAppend(a: string, b: string, c: char)
    requires Clean(a, c) && Clean(b, c)
    ensures Clean(a + b, c)
  {
    forall k | 0 <= k < |a + b| ensures (a + b)[k] != '"' && (a + b)[k] != '\n' && (a + b)[k] != c {
      if k < |a| { assert (a + b)[k] == a[k]; } else { assert (a + b)[k] == b[k - |a|]; }
    }
  }

  /** A line without double quotes, and without one of the characters of `Order ID:`, feeds
      no pass. */
  lemma QuietLine(line: string, c: char)
    requires c in OrderLabel && Clean(line, c)
    ensures Quiet(line)
  {
    assert '"' !in line && c !in line;
    QuoteFreeLine(line);
    LabelCharMissing(line, c);
  }

  /** `s` starts with `ord`, as `"orderId"` does after its quote. */
  predicate StartsOrd(s: string)
  {
    |s| >= 3 && s[0] == 'o' && s[1] == 'r' && s[2] == 'd'
  }

  /** What an occurrence of `"orderId"` shows at its start. */
  lemma KeyAt(line: string, i: nat)
    ensures OccursAt(line, i, JsonKey) ==>
      i + 9 <= |line| && line[i] == '"' && line[i + 1] == 'o' && line[i + 2] == 'r' && line[i + 3] == 'd'
  {
    OccursAtChars(line, i, JsonKey);
  }

  /** A field whose key and value hold no double quote, no line feed and no `O`, and do not
      start with `ord`, feeds no pass. */
  lemma StringFieldQuiet(key: string, value: string)
    requires Clean(key, 'O') && Clean(value, 'O') && !StartsOrd(key) && !StartsOrd(value)
    ensures Quiet(StringField(key, value)) && Quiet(LastStringField(key, value))
  {
    assert '"' !in key && '"' !in value && '\n' !in key && '\n' !in value && 'O' !in key && 'O' !in value;
    var line, last := StringField(key, value), LastStringField(key, value);
    forall i: nat | i <= |line| ensures !OccursAt(line, i, JsonKey) {
      KeyAt(line, i);
    }
    forall i: nat | i <= |last| ensures !OccursAt(last, i, JsonKey) {
      KeyAt(last, i);
    }
    LabelCharMissing(line, 'O');
    LabelCharMissing(last, 'O');
  }

  /** The same for a numeric field. */
  lemma NumberFieldQuiet(key: string, number: string)
    requires Clean(key, 'O') && Clean(number, 'O') && !StartsOrd(key)
    ensures Quiet(NumberField(key, number))
  {
    assert '"' !in key && '"' !in number && '\n' !in key && '\n' !in number && 'O' !in key && 'O' !in number;
    var line := NumberField(key, number);
    forall i: nat | i <= |line| ensures !OccursAt(line, i, JsonKey) {
      KeyAt(line, i);
    }
    LabelCharMissing(line, 'O');
  }

  /** UUIDs hold none of the characters the facts above look for. */
  lemma UuidFree(u: string)
    requires IsUuid(u)
    ensures Clean(u, 'O') && '"' !in u && '\n' !in u && 'O' !in u && !StartsOrd(u)
  {
    IsUuidChars(u);
  }

  lemma UuidFieldQuiet(key: string, u: string)
    requires IsUuid(u) && Clean(key, 'O') && !StartsOrd(key)
    ensures Quiet(StringField(key, u)) && Quiet(LastStringField(key, u))
  {
    UuidFree(u);
    StringFieldQuiet(key, u);
  }

  /** A JSON line `📊 Result: <open>"orderId": "<id>"<rest>` yields its id. */
  lemma ResultLineJson(open: string, id: string, rest: string)
    requires '"' !in open && IsUuid(id)
    ensures JsonCandidate(ResultLine(open, id, rest)) == Some(id)
  {
    JsonLineValue("\U{1F4CA} Result: " + open, id, rest);
  }

  lemma ResultLineNoLineFeed(open: string, id: string, rest: string)
    requires '\n' !in open && '\n' !in id && '\n' !in rest
    ensures NoLineFeed(ResultLine(open, id, rest))
  {
  }

  /** Without an `O` the JSON line feeds no label pass. */
  lemma ResultLineNoLabel(open: string, id: string, rest: string)
    requires 'O' !in open && 'O' !in id && 'O' !in rest
    ensures NoLabel(ResultLine(open, id, rest))
  {
    LabelCharMissing(ResultLine(open, id, rest), 'O');
  }

  lemma ResultLineFacts(open: string, id: string, rest: string)
    requires '"' !in open && '\n' !in open && '\n' !in rest && IsUuid(id)
    ensures NoLineFeed(ResultLine(open, id, rest)) && JsonCandidate(ResultLine(open, id, rest)) == Some(id)
  {
    UuidFree(id);
    ResultLineJson(open, id, rest);
    ResultLineNoLineFeed(open, id, rest);
  }

  /** `Order ID: <id>` */
  function LabelLine(id: string): string
  {
    OrderLabel + " " + id
  }

  /** Both label passes take the id of an `Order ID:` line. */
  lemma LabelLineValues(id: string)
    requires IsUuid(id)
    ensures LabelCandidate(LabelLine(id)) == Some(id) && LooseLabelCandidate(LabelLine(id)) == Some(id)
  {
    assert LabelLine(id) == OrderLabel + " " + id + "";
    LabelLineValue(id, "");
  }

  lemma LabelLineNoLineFeed(id: string)
    requires '\n' !in id
    ensures NoLineFeed(LabelLine(id))
  {
  }

  /** The JSON pass takes nothing from it. */
  lemma LabelLinePlain(id: string)
    requires '"' !in id && '\n' !in id
    ensures NoLineFeed(LabelLine(id)) && NoJson(LabelLine(id))
  {
    QuoteFreeLine(LabelLine(id));
  }

  lemma LabelLineFacts(id: string)
    requires IsUuid(id)
    ensures NoLineFeed(LabelLine(id)) && NoJson(LabelLine(id))
    ensures LabelCandidate(LabelLine(id)) == Some(id) && LooseLabelCandidate(LabelLine(id)) == Some(id)
  {
    UuidFree(id);
    LabelLinePlain(id);
    LabelLineValues(id);
  }

  // -------------------------------------------------------------------------------------
  // Which line decides
  // -------------------------------------------------------------------------------------

  /** A line between blocks that all have property `p`. */
  lemma EachAround(pre: seq<string>, line: string, rest: seq<string>, p: string -> bool)
    requires Each(pre, p) && p(line) && Each(rest, p)
    ensures Each(pre + [line] + rest, p)
  {
    EachAppend(pre, [line], p);
    EachAppend(pre + [line], rest, p);
  }

  /** The line after `pre` is the first on which `f` gives a value, when it gives none on
      `pre`. */
  lemma FirstAtAround(pre: seq<string>, line: string, rest: seq<string>, f: string -> Option<string>)
    requires forall j :: 0 <= j < |pre| ==> f(pre[j]).None?
    ensures |pre| < |pre + [line] + rest| && (pre + [line] + rest)[|pre|] == line
    ensures FirstAt(pre + [line] + rest, f, |pre|)
  {
    var lines := pre + [line] + rest;
    forall j | 0 <= j < |pre| ensures f(lines[j]).None? {
      assert lines[j] == pre[j];
    }
  }

  /** A report whose first JSON line is `line`: `extractOrderId` returns that line's id. */
  lemma JsonLineDecides(pre: seq<string>, line: string, rest: seq<string>)
    requires Each(pre, NoLineFeed) && Each(pre, NoJson) && Each(rest, NoLineFeed)
    requires NoLineFeed(line) && JsonCandidate(line).Some?
    ensures ExtractOrderId(Join(pre + [line] + rest)) == Success(JsonCandidate(line).value)
  {
    EachAround(pre, line, rest, NoLineFeed);
    FirstAtAround(pre, line, rest, JsonCandidate);
    ExtractOrderIdOfLines(pre + [line] + rest, |pre|);
  }

  /** A report without JSON lines whose first strict label line is `line`. */
  lemma LabelLineDecides(pre: seq<string>, line: string, rest: seq<string>)
    requires Each(pre, Quiet) && Each(rest, NoLineFeed) && Each(rest, NoJson)
    requires NoLineFeed(line) && NoJson(line) && LabelCandidate(line).Some?
    ensures ExtractOrderId(Join(pre + [line] + rest)) == Success(LabelCandidate(line).value)
  {
    QuietEach(pre);
    EachAround(pre, line, rest, NoLineFeed);
    EachAround(pre, line, rest, NoJson);
    FirstAtAround(pre, line, rest, LabelCandidate);
    ExtractOrderIdByLabelOfLines(pre + [line] + rest, |pre|);
  }

  /** A log whose first label line is `line`: `extractOrderIdFromLog` returns its id. */
  lemma LooseLabelLineDecides(pre: seq<string>, line: string, rest: seq<string>)
    requires Each(pre, NoLineFeed) && Each(pre, NoLabel) && Each(rest, NoLineFeed)
    requires NoLineFeed(line) && LooseLabelCandidate(line).Some?
    ensures ExtractOrderIdFromLog(Join(pre + [line] + rest)) == Success(LooseLabelCandidate(line).value)
  {
    EachAround(pre, line, rest, NoLineFeed);
    FirstAtAround(pre, line, rest, LooseLabelCandidate);
    ExtractOrderIdFromLogOfLines(pre + [line] + rest, |pre|);
  }

  // -------------------------------------------------------------------------------------
  // The fixed lines of the reports
  // -------------------------------------------------------------------------------------

  lemma BannerQuiet() ensures Quiet(Banner) { QuietLine(Banner, ':'); }
  lemma HeadingQuiet() ensures Quiet(SuccessHeading) { QuietLine(SuccessHeading, ':'); }
  lemma CreatedQuiet() ensures Quiet(CreatedLine) { QuietLine(CreatedLine, ':'); }
  lemma BraceQuiet() ensures Quiet("}") { QuietLine("}", ':'); }
  lemma EmptyQuiet() ensures Quiet("") { QuietLine("", ':'); }

  lemma StartingQuiet(kind: string)
    requires Clean(kind, ':')
    ensures Quiet(StartingLine(kind))
  {
    var head, tail := "\U{1F680} Starting ", "order creation...";
    assert Clean(head, ':') && Clean(tail, ':');
    CleanAppend(head, kind, ':');
    CleanAppend(head + kind, tail, ':');
    QuietLine(StartingLine(kind), ':');
  }

  /** `Workflow ID: <wf>` feeds no pass. */
  lemma WorkflowLineQuiet(wf: string)
    requires Clean(wf, 'O')
    ensures Quiet(WorkflowLabel + wf)
  {
    assert Clean(WorkflowLabel, 'O');
    CleanAppend(WorkflowLabel, wf, 'O');
    QuietLine(WorkflowLabel + wf, 'O');
  }

  lemma EachPair(x: string, y: string, p: string -> bool)
    requires p(x) && p(y)
    ensures Each([x, y], p)
  {
  }

  lemma EachTriple(x: string, y: string, z: string, p: string -> bool)
    requires p(x) && p(y) && p(z)
    ensures Each([x, y, z], p)
  {
  }

  /** The banner and the summary heading that follow the JSON line. */
  lemma SuccessBlockQuiet()
    ensures Each(["", SuccessHeading, Banner], Quiet)
  {
    EmptyQuiet();
    HeadingQuiet();
    BannerQuiet();
    EachTriple("", SuccessHeading, Banner, Quiet);
  }

  // -------------------------------------------------------------------------------------
  // The order data block
  // -------------------------------------------------------------------------------------

  /** The order id the simulated log reports, and the ids of its order data. */
  const MockOrderId := UuidText("fe2cb863", "128d", "4066", "8855", "f02b1b9001e5")
  const ConversationId := UuidText("8c18e4cb", "1ee4", "4238", "9e6d", "4d91e1b1737a")
  const UserId := UuidText("749f7f6e", "bb1a", "458e", "b277", "ea116d99fb08")
  const BeneficiaryId := UuidText("b59c68b7", "34e4", "4757", "abf2", "ce6b631f0f13")
  const DeliveryMethodId := UuidText("0e6a5d26", "2440", "4b2a", "ad58", "c5cee737a3a6")
  const PromotionId := UuidText("7c1fa89d", "54a1", "4283", "aeed", "c207a01ba2db")

  /** The fields naming who orders and for whom. */
  function PartyFields(): seq<string>
  {
    [ StringField("phoneNumber", "5526535283"),
      StringField("phoneCountryCode", "52"),
      StringField("conversationId", ConversationId),
      StringField("userId", UserId),
      StringField("beneficiaryId", BeneficiaryId),
      StringField("deliveryMethodId", DeliveryMethodId) ]
  }

  /** The amounts, which differ between the simulated log and the sample outputs. */
  function AmountFields(origin: string, destination: string): seq<string>
  {
    [ NumberField("originAmount", origin),
      NumberField("destinationAmount", destination),
      NumberField("finalAmount", destination) ]
  }

  function DeliveryFields(): seq<string>
  {
    [ StringField("deliveryMethodType", "BANK"),
      NumberField("fxRate", "18.35"),
      LastStringField("promotionId", PromotionId) ]
  }

  /** The order data block between its opening line and the closing brace. */
  function OrderDataFields(origin: string, destination: string): seq<string>
  {
    PartyFields() + AmountFields(origin, destination) + DeliveryFields()
  }

  lemma MockOrderIdIsUuid() ensures IsUuid(MockOrderId)
  {
    UuidTextIsUuid("fe2cb863", "128d", "4066", "8855", "f02b1b9001e5");
  }

  lemma PhoneNumberQuiet() ensures Quiet(StringField("phoneNumber", "5526535283"))
  {
    assert Clean("phoneNumber", 'O') && Clean("5526535283", 'O');
    StringFieldQuiet("phoneNumber", "5526535283");
  }

  lemma PhoneCountryCodeQuiet() ensures Quiet(StringField("phoneCountryCode", "52"))
  {
    assert Clean("phoneCountryCode", 'O') && Clean("52", 'O');
    StringFieldQuiet("phoneCountryCode", "52");
  }

  lemma ConversationFieldQuiet() ensures Quiet(StringField("conversationId", ConversationId))
  {
    UuidTextIsUuid("8c18e4cb", "1ee4", "4238", "9e6d", "4d91e1b1737a");
    assert Clean("conversationId", 'O');
    UuidFieldQuiet("conversationId", ConversationId);
  }

  lemma UserFieldQuiet() ensures Quiet(StringField("userId", UserId))
  {
    UuidTextIsUuid("749f7f6e", "bb1a", "458e", "b277", "ea116d99fb08");
    assert Clean("userId", 'O');
    UuidFieldQuiet("userId", UserId);
  }

  lemma BeneficiaryFieldQuiet() ensures Quiet(StringField("beneficiaryId", BeneficiaryId))
  {
    UuidTextIsUuid("b59c68b7", "34e4", "4757", "abf2", "ce6b631f0f13");
    assert Clean("beneficiaryId", 'O');
    UuidFieldQuiet("beneficiaryId", BeneficiaryId);
  }

  lemma DeliveryMethodFieldQuiet() ensures Quiet(StringField("deliveryMethodId", DeliveryMethodId))
  {
    UuidTextIsUuid("0e6a5d26", "2440", "4b2a", "ad58", "c5cee737a3a6");
    assert Clean("deliveryMethodId", 'O');
    UuidFieldQuiet("deliveryMethodId", DeliveryMethodId);
  }

  lemma PartyFieldsQuiet() ensures Each(PartyFields(), Quiet)
  {
    PhoneNumberQuiet();
    PhoneCountryCodeQuiet();
    ConversationFieldQuiet();
    UserFieldQuiet();
    BeneficiaryFieldQuiet();
    DeliveryMethodFieldQuiet();
  }

  lemma OriginAmountQuiet(origin: string)
    requires Clean(origin, 'O')
    ensures Quiet(NumberField("originAmount", origin))
  {
    assert Clean("originAmount", 'O');
    NumberFieldQuiet("originAmount", origin);
  }

  lemma DestinationAmountQuiet(destination: string)
    requires Clean(destination, 'O')
    ensures Quiet(NumberField("destinationAmount", destination))
  {
    assert Clean("destinationAmount", 'O');
    NumberFieldQuiet("destinationAmount", destination);
  }

  lemma FinalAmountQuiet(destination: string)
    requires Clean(destination, 'O')
    ensures Quiet(NumberField("finalAmount", destination))
  {
    assert Clean("finalAmount", 'O');
    NumberFieldQuiet("finalAmount", destination);
  }

  lemma AmountFieldsQuiet(origin: string, destination: string)
    requires Clean(origin, 'O') && Clean(destination, 'O')
    ensures Each(AmountFields(origin, destination), Quiet)
  {
    OriginAmountQuiet(origin);
    DestinationAmountQuiet(destination);
    FinalAmountQuiet(destination);
    EachTriple(NumberField("originAmount", origin), NumberField("destinationAmount", destination),
      NumberField("finalAmount", destination), Quiet);
  }

  lemma DeliveryTypeQuiet() ensures Quiet(StringField("deliveryMethodType", "BANK"))
  {
    assert Clean("deliveryMethodType", 'O') && Clean("BANK", 'O');
    StringFieldQuiet("deliveryMethodType", "BANK");
  }

  lemma FxRateQuiet() ensures Quiet(NumberField("fxRate", "18.35"))
  {
    assert Clean("fxRate", 'O') && Clean("18.35", 'O');
    NumberFieldQuiet("fxRate", "18.35");
  }

  lemma PromotionFieldQuiet() ensures Quiet(LastStringField("promotionId", PromotionId))
  {
    UuidTextIsUuid("7c1fa89d", "54a1", "4283", "aeed", "c207a01ba2db");
    assert Clean("promotionId", 'O');
    UuidFieldQuiet("promotionId", PromotionId);
  }

  lemma DeliveryFieldsQuiet() ensures Each(DeliveryFields(), Quiet)
  {
    DeliveryTypeQuiet();
    FxRateQuiet();
    PromotionFieldQuiet();
  }

  /** No line of the order data feeds any pass, whatever the amounts (as long as they are
      plain numbers), although five of them carry UUIDs. */
  lemma OrderDataFieldsQuiet(origin: string, destination: string)
    requires Clean(origin, 'O') && Clean(destination, 'O')
    ensures Each(OrderDataFields(origin, destination), Quiet)
  {
    PartyFieldsQuiet();
    AmountFieldsQuiet(origin, destination);
    DeliveryFieldsQuiet();
    EachAppend(PartyFields(), AmountFields(origin, destination), Quiet);
    EachAppend(PartyFields() + AmountFields(origin, destination), DeliveryFields(), Quiet);
  }

  /** The opening lines, the order data and the two lines after it. */
  function DataIntro(head: seq<string>, origin: string, destination: string): seq<string>
  {
    head + OrderDataFields(origin, destination) + ["}", CreatedLine]
  }

  lemma DataIntroQuiet(head: seq<string>, origin: string, destination: string)
    requires Each(head, Quiet) && Clean(origin, 'O') && Clean(destination, 'O')
    ensures Each(DataIntro(head, origin, destination), Quiet)
  {
    OrderDataFieldsQuiet(origin, destination);
    BraceQuiet();
    CreatedQuiet();
    EachPair("}", CreatedLine, Quiet);
    EachAppend(head, OrderDataFields(origin, destination), Quiet);
    EachAppend(head + OrderDataFields(origin, destination), ["}", CreatedLine], Quiet);
  }

  // -------------------------------------------------------------------------------------
  // The sample outputs fed to `extractOrderId`
  // -------------------------------------------------------------------------------------

  /** What follows the id on the JSON line of the sample outputs. */
  function SampleResultRest(wf: string): string
  {
    ", \"workflowId\": \"" + wf + "\", \"message\": " + "\"Order created and " + "process started " + "successfully\" }"
  }

  /** The JSON line of the sample outputs:
      `📊 Result: { "orderId": "<id>", "workflowId": "<wf>", "message": "…" }`. */
  function SampleResultLine(id: string, wf: string): string
  {
    ResultLine("{ ", id, SampleResultRest(wf))
  }

  /** A sample output: the lines before the JSON line, the JSON line, the banner and the
      summary lines. */
  function SampleOutput(intro: seq<string>, id: string, wf: string, summary: seq<string>): seq<string>
  {
    intro + [SampleResultLine(id, wf)] + (["", SuccessHeading, Banner] + summary + [Banner])
  }

  lemma SampleResultRestPlain(wf: string)
    requires '\n' !in wf
    ensures '\n' !in SampleResultRest(wf)
  {
  }

  /** The banner, the summary lines and the closing banner hold no line feed. */
  lemma SummaryBlockPlain(summary: seq<string>)
    requires Each(summary, NoLineFeed)
    ensures Each(["", SuccessHeading, Banner] + summary + [Banner], NoLineFeed)
  {
    SuccessBlockQuiet();
    BannerQuiet();
    QuietEach(["", SuccessHeading, Banner]);
    QuietEach([Banner]);
    EachAppend(["", SuccessHeading, Banner], summary, NoLineFeed);
    EachAppend(["", SuccessHeading, Banner] + summary, [Banner], NoLineFeed);
  }

  /** Whatever its intro (as long as the intro feeds no pass) and its summary, a sample output
      yields the id on its JSON line. */
  lemma SampleOutputYieldsJsonId(intro: seq<string>, id: string, wf: string, summary: seq<string>)
    requires Each(intro, Quiet) && Each(summary, NoLineFeed)
    requires IsUuid(id) && '\n' !in wf
    ensures ExtractOrderId(Join(SampleOutput(intro, id, wf, summary))) == Success(id)
  {
    SampleResultRestPlain(wf);
    ResultLineFacts("{ ", id, SampleResultRest(wf));
    QuietEach(intro);
    SummaryBlockPlain(summary);
    JsonLineDecides(intro, SampleResultLine(id, wf), ["", SuccessHeading, Banner] + summary + [Banner]);
  }

  /** `🚀 Starting test order creation...`, `📋 Order data: { ... }`, `✅ Order created
      successfully!` */
  function ShortIntro(): seq<string>
  {
    [StartingLine("test "), "\U{1F4CB} Order data: " + "{ ... }", CreatedLine]
  }

  /** The intro of the realistic outputs, with the order data printed in full. */
  function FullIntro(): seq<string>
  {
    DataIntro([StartingLine("test "), "\U{1F4CB} Order data: {"], "60.0", "1101.00")
  }

  lemma TestStartingQuiet() ensures Quiet(StartingLine("test "))
  {
    assert Clean("test ", ':');
    StartingQuiet("test ");
  }

  lemma ShortIntroQuiet() ensures Each(ShortIntro(), Quiet)
  {
    TestStartingQuiet();
    QuietLine("\U{1F4CB} Order data: " + "{ ... }", 'I');
    CreatedQuiet();
    EachTriple(StartingLine("test "), "\U{1F4CB} Order data: " + "{ ... }", CreatedLine, Quiet);
  }

  lemma FullIntroHeadQuiet() ensures Each([StartingLine("test "), "\U{1F4CB} Order data: {"], Quiet)
  {
    TestStartingQuiet();
    QuietLine("\U{1F4CB} Order data: {", 'I');
    EachPair(StartingLine("test "), "\U{1F4CB} Order data: {", Quiet);
  }

  lemma FullIntroQuiet() ensures Each(FullIntro(), Quiet)
  {
    FullIntroHeadQuiet();
    assert Clean("60.0", 'O') && Clean("1101.00", 'O');
    DataIntroQuiet([StartingLine("test "), "\U{1F4CB} Order data: {"], "60.0", "1101.00");
  }

  /** The summary lines `Order ID: <id>` / `Workflow ID: <wf>`. */
  function TwoLineSummary(id: string, wf: string): seq<string>
  {
    [LabelLine(id), WorkflowLabel + wf]
  }

  /** The summary line `Order ID: <id>, Workflow ID: <id>`. */
  function OneLineSummary(id: string): seq<string>
  {
    [OrderLabel + " " + id + ", " + WorkflowLabel + id]
  }

  lemma SummariesHaveNoLineFeed(id: string, wf: string)
    requires IsUuid(id) && IsUuid(wf)
    ensures Each(TwoLineSummary(id, wf), NoLineFeed) && Each(OneLineSummary(id), NoLineFeed)
  {
    UuidFree(id);
    UuidFree(wf);
    LabelLinePlain(id);
    assert NoLineFeed(WorkflowLabel + wf);
    EachPair(LabelLine(id), WorkflowLabel + wf, NoLineFeed);
    assert NoLineFeed(OrderLabel + " " + id + ", " + WorkflowLabel + id);
  }

  /** Any sample output with the short intro and a two-line or one-line summary yields the id
      on its JSON line (the first, fourth and fifth checks). */
  lemma ShortOutputYieldsId(id: string, wf: string)
    requires IsUuid(id) && IsUuid(wf)
    ensures ExtractOrderId(Join(SampleOutput(ShortIntro(), id, wf, TwoLineSummary(id, wf)))) == Success(id)
    ensures ExtractOrderId(Join(SampleOutput(ShortIntro(), id, id, OneLineSummary(id)))) == Success(id)
  {
    ShortIntroQuiet();
    SummariesHaveNoLineFeed(id, wf);
    UuidFree(wf);
    UuidFree(id);
    SampleOutputYieldsJsonId(ShortIntro(), id, wf, TwoLineSummary(id, wf));
    SampleOutputYieldsJsonId(ShortIntro(), id, id, OneLineSummary(id));
  }

  /** The second check: only the banner and the summary, no JSON line. */
  function LabelOnlyOutput(id: string, wf: string): seq<string>
  {
    [SuccessHeading, Banner] + [LabelLine(id)] + [WorkflowLabel + wf, Banner]
  }

  lemma LabelOnlyOutputYieldsId(id: string, wf: string)
    requires IsUuid(id) && IsUuid(wf)
    ensures ExtractOrderId(Join(LabelOnlyOutput(id, wf))) == Success(id)
  {
    UuidFree(id);
    UuidFree(wf);
    HeadingQuiet();
    BannerQuiet();
    WorkflowLineQuiet(wf);
    EachPair(SuccessHeading, Banner, Quiet);
    EachPair(WorkflowLabel + wf, Banner, Quiet);
    QuietEach([WorkflowLabel + wf, Banner]);
    LabelLineFacts(id);
    LabelLineDecides([SuccessHeading, Banner], LabelLine(id), [WorkflowLabel + wf, Banner]);
  }

  /** The third check: `✅ Order created successfully!` and the JSON line alone. */
  function TwoLineOutput(id: string, wf: string): seq<string>
  {
    [CreatedLine] + [ResultLine("{ ", id, ", \"workflowId\": \"" + wf + "\" }")] + []
  }

  lemma TwoLineOutputYieldsId(id: string, wf: string)
    requires IsUuid(id) && IsUuid(wf)
    ensures ExtractOrderId(Join(TwoLineOutput(id, wf))) == Success(id)
  {
    UuidFree(wf);
    CreatedQuiet();
    var rest := ", \"workflowId\": \"" + wf + "\" }";
    assert '\n' !in rest;
    ResultLineFacts("{ ", id, rest);
    QuietEach([CreatedLine]);
    JsonLineDecides([CreatedLine], ResultLine("{ ", id, rest), []);
  }

  const SampleId1 := UuidText("00c803e0", "b5a5", "4162", "a673", "17c37649ec08")
  const SampleWorkflow1 := UuidText("715958c4", "c2f1", "4562", "b0c5", "05f9792ade78")
  const SampleId2 := UuidText("9e176ea4", "61d6", "4e29", "939f", "0f9976e31e33")
  const SampleId3 := UuidText("a1b2c3d4", "e5f6", "7890", "abcd", "ef1234567890")
  const SampleWorkflow3 := UuidText("f1e2d3c4", "b5a6", "9870", "fedc", "ba0987654321")
  const SampleId5 := UuidText("52497f3e", "ce60", "4c50", "b3e5", "f8247b5eb056")
  const DebugId := UuidText("e2a2f653", "0410", "4be1", "8523", "4e95d7773246")

  /** The five checks of the extraction test script, each with its expected id. */
  lemma ExtractionChecks()
    ensures ExtractOrderId(Join(SampleOutput(ShortIntro(), SampleId1, SampleWorkflow1,
      TwoLineSummary(SampleId1, SampleWorkflow1)))) == Success(SampleId1)
    ensures ExtractOrderId(Join(LabelOnlyOutput(SampleId2, SampleWorkflow1))) == Success(SampleId2)
    ensures ExtractOrderId(Join(TwoLineOutput(SampleId3, SampleWorkflow3))) == Success(SampleId3)
    ensures ExtractOrderId(Join(SampleOutput(ShortIntro(), SampleId2, SampleWorkflow1,
      TwoLineSummary(SampleId2, SampleWorkflow1)))) == Success(SampleId2)
    ensures ExtractOrderId(Join(SampleOutput(ShortIntro(), SampleId5, SampleId5,
      OneLineSummary(SampleId5)))) == Success(SampleId5)
  {
    UuidTextIsUuid("00c803e0", "b5a5", "4162", "a673", "17c37649ec08");
    UuidTextIsUuid("715958c4", "c2f1", "4562", "b0c5", "05f9792ade78");
    UuidTextIsUuid("9e176ea4", "61d6", "4e29", "939f", "0f9976e31e33");
    UuidTextIsUuid("a1b2c3d4", "e5f6", "7890", "abcd", "ef1234567890");
    UuidTextIsUuid("f1e2d3c4", "b5a6", "9870", "fedc", "ba0987654321");
    UuidTextIsUuid("52497f3e", "ce60", "4c50", "b3e5", "f8247b5eb056");
    ShortOutputYieldsId(SampleId1, SampleWorkflow1);
    LabelOnlyOutputYieldsId(SampleId2, SampleWorkflow1);
    TwoLineOutputYieldsId(SampleId3, SampleWorkflow3);
    ShortOutputYieldsId(SampleId2, SampleWorkflow1);
    ShortOutputYieldsId(SampleId5, SampleWorkflow1);
  }

  /** The realistic outputs: the order data prints five other UUIDs (the conversation id
      first) before the JSON line, and yet the JSON line's id is returned. */
  lemma RealOutputYieldsId(id: string)
    requires IsUuid(id)
    ensures ExtractOrderId(Join(SampleOutput(FullIntro(), id, id, OneLineSummary(id)))) == Success(id)
  {
    FullIntroQuiet();
    SummariesHaveNoLineFeed(id, id);
    UuidFree(id);
    SampleOutputYieldsJsonId(FullIntro(), id, id, OneLineSummary(id));
  }

  lemma RealOutputChecks()
    ensures ExtractOrderId(Join(SampleOutput(FullIntro(), SampleId5, SampleId5, OneLineSummary(SampleId5))))
      == Success(SampleId5)
    ensures ExtractOrderId(Join(SampleOutput(FullIntro(), DebugId, DebugId, OneLineSummary(DebugId))))
      == Success(DebugId)
  {
    UuidTextIsUuid("52497f3e", "ce60", "4c50", "b3e5", "f8247b5eb056");
    UuidTextIsUuid("e2a2f653", "0410", "4be1", "8523", "4e95d7773246");
    RealOutputYieldsId(SampleId5);
    RealOutputYieldsId(DebugId);
  }

  // -------------------------------------------------------------------------------------
  // The simulated order-creation log of the order-update script
  // -------------------------------------------------------------------------------------

  /** What follows the id on the simulated JSON line. */
  const SimulatedResultRest := ", \"workflowId\": " + "\"workflow-123\", " + "\"success\": true}"

  /** `📊 Result: {"orderId": "<id>", "workflowId": "workflow-123", "success": true}` */
  function SimulatedResultLine(): string
  {
    ResultLine("{", MockOrderId, SimulatedResultRest)
  }

  /** The opening lines: the template literal starts with a line feed, hence the empty first
      line. */
  function SimulatedHead(): seq<string>
  {
    ["", StartingLine("cash payment "), "\U{1F4CB} Cash payment " + "order data: {"]
  }

  /** The lines before the JSON line. */
  function SimulatedIntro(): seq<string>
  {
    DataIntro(SimulatedHead(), "60", "450")
  }

  /** The lines after the JSON line up to the `Order ID:` line. */
  const SimulatedBanner: seq<string> := ["", SuccessHeading, Banner]

  /** The lines after the `Order ID:` line: the template literal also ends with a line feed,
      hence the empty last line. */
  function SimulatedTrailer(): seq<string>
  {
    [WorkflowLabel + "workflow-123", Banner, ""]
  }

  /** The lines of `simulateOrderCreationLog()`. */
  function SimulatedLogLines(): seq<string>
  {
    SimulatedIntro() + [SimulatedResultLine()] + SimulatedAfterJson()
  }

  /** `simulateOrderCreationLog()` of the order-update script. */
  function SimulateOrderCreationLog(): string
  {
    Join(SimulatedLogLines())
  }

  lemma CashStartingQuiet() ensures Quiet(StartingLine("cash payment "))
  {
    assert Clean("cash payment ", ':');
    StartingQuiet("cash payment ");
  }

  lemma SimulatedHeadQuiet() ensures Each(SimulatedHead(), Quiet)
  {
    EmptyQuiet();
    CashStartingQuiet();
    QuietLine("\U{1F4CB} Cash payment " + "order data: {", 'O');
    EachTriple("", StartingLine("cash payment "), "\U{1F4CB} Cash payment " + "order data: {", Quiet);
  }

  lemma SimulatedIntroQuiet() ensures Each(SimulatedIntro(), Quiet)
  {
    SimulatedHeadQuiet();
    assert Clean("60", 'O') && Clean("450", 'O');
    DataIntroQuiet(SimulatedHead(), "60", "450");
  }

  lemma SimulatedResultRestPlain() ensures '\n' !in SimulatedResultRest && 'O' !in SimulatedResultRest
  {
  }

  lemma SimulatedResultLineFacts()
    ensures NoLineFeed(SimulatedResultLine()) && NoLabel(SimulatedResultLine())
    ensures JsonCandidate(SimulatedResultLine()) == Some(MockOrderId)
  {
    MockOrderIdIsUuid();
    UuidFree(MockOrderId);
    SimulatedResultRestPlain();
    ResultLineFacts("{", MockOrderId, SimulatedResultRest);
    ResultLineNoLabel("{", MockOrderId, SimulatedResultRest);
  }

  lemma SimulatedTrailerFacts()
    ensures Each(SimulatedTrailer(), NoLineFeed)
  {
    assert Clean("workflow-123", 'O');
    WorkflowLineQuiet("workflow-123");
    BannerQuiet();
    EmptyQuiet();
    EachTriple(WorkflowLabel + "workflow-123", Banner, "", Quiet);
    QuietEach(SimulatedTrailer());
  }

  /** The lines before the `Order ID:` line. */
  function SimulatedBeforeLabel(): seq<string>
  {
    SimulatedIntro() + [SimulatedResultLine()] + SimulatedBanner
  }

  /** The lines before the `Order ID:` line feed no label pass. */
  lemma SimulatedBeforeLabelFacts()
    ensures Each(SimulatedBeforeLabel(), NoLineFeed) && Each(SimulatedBeforeLabel(), NoLabel)
  {
    SimulatedIntroQuiet();
    SimulatedResultLineFacts();
    SuccessBlockQuiet();
    QuietEach(SimulatedIntro());
    QuietEach(SimulatedBanner);
    EachAppend(SimulatedIntro(), [SimulatedResultLine()], NoLineFeed);
    EachAppend(SimulatedIntro(), [SimulatedResultLine()], NoLabel);
    EachAppend(SimulatedIntro() + [SimulatedResultLine()], SimulatedBanner, NoLineFeed);
    EachAppend(SimulatedIntro() + [SimulatedResultLine()], SimulatedBanner, NoLabel);
  }

  /** The order-update script, run without an id, extracts the simulated order's id: the
      `Order ID:` line decides, although the order data prints other UUIDs earlier. */
  lemma SimulatedLogYieldsMockId()
    ensures ExtractOrderIdFromLog(SimulateOrderCreationLog()) == Success(MockOrderId)
  {
    SimulatedBeforeLabelFacts();
    SimulatedTrailerFacts();
    MockOrderIdIsUuid();
    LabelLineFacts(MockOrderId);
    var before := SimulatedIntro() + [SimulatedResultLine()];
    SeqAppendAssoc(before, SimulatedBanner + [LabelLine(MockOrderId)], SimulatedTrailer());
    SeqAppendAssoc(before, SimulatedBanner, [LabelLine(MockOrderId)]);
    LooseLabelLineDecides(SimulatedBeforeLabel(), LabelLine(MockOrderId), SimulatedTrailer());
  }

  /** The lines after the JSON line. */
  function SimulatedAfterJson(): seq<string>
  {
    SimulatedBanner + [LabelLine(MockOrderId)] + SimulatedTrailer()
  }

  /** The lines after the JSON line hold no line feed. */
  lemma SimulatedAfterJsonFacts()
    ensures Each(SimulatedAfterJson(), NoLineFeed)
  {
    SuccessBlockQuiet();
    QuietEach(SimulatedBanner);
    SimulatedTrailerFacts();
    MockOrderIdIsUuid();
    UuidFree(MockOrderId);
    LabelLineNoLineFeed(MockOrderId);
    EachAppend(SimulatedBanner, [LabelLine(MockOrderId)], NoLineFeed);
    EachAppend(SimulatedBanner + [LabelLine(MockOrderId)], SimulatedTrailer(), NoLineFeed);
  }

  /** The integration scripts' extractor agrees on the simulated log, through its JSON line. */
  lemma SimulatedLogJsonAgrees()
    ensures ExtractOrderId(SimulateOrderCreationLog()) == Success(MockOrderId)
  {
    SimulatedIntroQuiet();
    QuietEach(SimulatedIntro());
    SimulatedResultLineFacts();
    SimulatedAfterJsonFacts();
    JsonLineDecides(SimulatedIntro(), SimulatedResultLine(), SimulatedAfterJson());
  }
}
