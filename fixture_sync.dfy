/**
 * The fixture updaters of the scripts: each reads a fixture file, validates the order id,
 * rewrites the text (drop `, Workflow ID: <uuid>` annotations, put the id in place of every
 * UUID, put it in place of every `placeholder`, in an order that differs per script), writes
 * the file back and then re-reads it to check the id and the payment URLs. The file is a
 * `FixtureFile` object whose `content` the updaters overwrite; the checks run after the write,
 * so a failed check leaves the rewritten text on disk.
 */
module FixtureSync {
  import opened Wrappers
  import opened JsText
  import opened Uuid

  /** The literal that the empty fixtures hold where an order id belongs. */
  const Placeholder := "placeholder"

  /** Scheme and host of every payment page URL. */
  const HostBase := "https://test.pay.felixpago.com"

  /** `https://test\.pay\.felixpago\.com/${orderId}/` as a literal: a validated id holds only hex
      digits and dashes, none of which is special in a regular expression. */
  function UrlPrefix(id: string): string
  {
    HostBase + "/" + id + "/"
  }

  /** A payment page URL with `placeholder` where the order id belongs, as the empty
      fixtures write it. */
  function PlaceholderUrl(path: string): string
  {
    HostBase + "/" + Placeholder + "/" + path
  }

  /** The id the hard-coded script always uses. */
  const HardcodedOrderId := UuidText("a84ab411", "a690", "488d", "a32a", "6e053f434807")

  function InvalidIdError(id: string): string
  {
    "Invalid OrderId: " + id + ". Must be a valid UUID."
  }

  const CashNotUpdatedError := "Error: OrderId was not updated correctly in the cash payment test data file"
  const TestDataNotUpdatedError := "Error: OrderId was not updated correctly in the file"

  function UrlsError(id: string): string
  {
    "Error: Not all URLs were updated correctly. Expected at least 3 URLs with orderId " + id
  }

  // ---------------------------------------------------------------------------------------
  // The rewrites, one per script, in the order each script applies its steps
  // ---------------------------------------------------------------------------------------

  /** `updateCashPaymentTestData`: annotations, then UUIDs, then placeholders. */
  function CashRewrite(content: string, id: string): string
  {
    ReplaceAll(ReplaceUuids(StripWorkflowAnnotations(content), id), Placeholder, id)
  }

  /** `updateTestData`: annotations, then UUIDs; placeholders are left alone. */
  function TestDataRewrite(content: string, id: string): string
  {
    ReplaceUuids(StripWorkflowAnnotations(content), id)
  }

  /** `updateCashPaymentTestDataWithRealOrder`: UUIDs, then placeholders; no annotation pass. */
  function RealOrderRewrite(content: string, id: string): string
  {
    ReplaceAll(ReplaceUuids(content, id), Placeholder, id)
  }

  /** `updateCashPaymentTestDataWithHardcodedOrder`: placeholders first, then UUIDs. */
  function HardcodedRewrite(content: string): string
  {
    ReplaceUuids(ReplaceAll(content, Placeholder, HardcodedOrderId), HardcodedOrderId)
  }

  /** The checks a cash-payment updater runs on the text it reads back. */
  function CashCheck(updated: string, id: string): Result<(), string>
    requires |id| > 0
  {
    if !Includes(updated, id) then Failure(CashNotUpdatedError)
    else if CountMatches(updated, UrlPrefix(id)) < 3 then Failure(UrlsError(id))
    else Success(())
  }

  /** The check `updateTestData` runs on the text it reads back. */
  function TestDataCheck(updated: string, id: string): Result<(), string>
  {
    if !Includes(updated, id) then Failure(TestDataNotUpdatedError) else Success(())
  }

  /** A passed check returns the id, as the real-order and hard-coded updaters do. */
  function ReturningId(r: Result<(), string>, id: string): Result<string, string>
  {
    match r
    case Success(_) => Success(id)
    case Failure(e) => Failure(e)
  }

  /** One fixture file on disk. */
  class FixtureFile {
    var content: string

    constructor (text: string)
      ensures content == text
    {
      content := text;
    }

    /** `updateCashPaymentTestData(orderId)`: an invalid id is refused before anything is
        written; otherwise the rewritten text is written and then checked. */
    method UpdateCashPaymentTestData(orderId: string) returns (r: Result<(), string>)
      modifies this
      ensures !IsUuid(orderId) ==> content == old(content) && r == Failure(InvalidIdError(orderId))
      ensures IsUuid(orderId) ==> content == CashRewrite(old(content), orderId)
      ensures IsUuid(orderId) ==> r == CashCheck(content, orderId)
    {
      var text := content;
      if !IsUuid(orderId) {
        return Failure(InvalidIdError(orderId));
      }
      text := StripWorkflowAnnotations(text);
      text := ReplaceUuids(text, orderId);
      text := ReplaceAll(text, Placeholder, orderId);
      content := text;
      var updated := content;
      if !Includes(updated, orderId) {
        return Failure(CashNotUpdatedError);
      }
      if CountMatches(updated, UrlPrefix(orderId)) < 3 {
        return Failure(UrlsError(orderId));
      }
      return Success(());
    }

    /** `updateTestData(orderId)`: validation, annotations, UUIDs, write, then the id check. */
    method UpdateTestData(orderId: string) returns (r: Result<(), string>)
      modifies this
      ensures !IsUuid(orderId) ==> content == old(content) && r == Failure(InvalidIdError(orderId))
      ensures IsUuid(orderId) ==> content == TestDataRewrite(old(content), orderId)
      ensures IsUuid(orderId) ==> r == TestDataCheck(content, orderId)
    {
      var text := content;
      if !IsUuid(orderId) {
        return Failure(InvalidIdError(orderId));
      }
      text := StripWorkflowAnnotations(text);
      text := ReplaceUuids(text, orderId);
      content := text;
      var updated := content;
      if !Includes(updated, orderId) {
        return Failure(TestDataNotUpdatedError);
      }
      return Success(());
    }

    /** `updateCashPaymentTestDataWithRealOrder(orderId)`: validation, UUIDs, placeholders,
        write, both checks, and the id is returned. */
    method UpdateWithRealOrder(orderId: string) returns (r: Result<string, string>)
      modifies this
      ensures !IsUuid(orderId) ==> content == old(content) && r == Failure(InvalidIdError(orderId))
      ensures IsUuid(orderId) ==> content == RealOrderRewrite(old(content), orderId)
      ensures IsUuid(orderId) ==> r == ReturningId(CashCheck(content, orderId), orderId)
    {
      var text := content;
      if !IsUuid(orderId) {
        return Failure(InvalidIdError(orderId));
      }
      text := ReplaceUuids(text, orderId);
      text := ReplaceAll(text, Placeholder, orderId);
      content := text;
      var updated := content;
      if !Includes(updated, orderId) {
        return Failure(CashNotUpdatedError);
      }
      if CountMatches(updated, UrlPrefix(orderId)) < 3 {
        return Failure(UrlsError(orderId));
      }
      return Success(orderId);
    }

    /** `updateCashPaymentTestDataWithHardcodedOrder()`: no validation (the id is a constant),
        placeholders, UUIDs, write, both checks, and the id is returned. */
    method UpdateWithHardcodedOrder() returns (r: Result<string, string>)
      modifies this
      ensures content == HardcodedRewrite(old(content))
      ensures r == ReturningId(CashCheck(content, HardcodedOrderId), HardcodedOrderId)
    {
      var orderId := HardcodedOrderId;
      var text := content;
      text := ReplaceAll(text, Placeholder, orderId);
      text := ReplaceUuids(text, orderId);
      content := text;
      var updated := content;
      if !Includes(updated, orderId) {
        return Failure(CashNotUpdatedError);
      }
      if CountMatches(updated, UrlPrefix(orderId)) < 3 {
        return Failure(UrlsError(orderId));
      }
      return Success(orderId);
    }
  }

  // ---------------------------------------------------------------------------------------
  // Properties of the rewrites and the checks
  // ---------------------------------------------------------------------------------------

  /** The hard-coded id passes the validation the other updaters apply. */
  lemma HardcodedOrderIdIsUuid()
    ensures IsUuid(HardcodedOrderId)
  {
    UuidTextIsUuid("a84ab411", "a690", "488d", "a32a", "6e053f434807");
  }

  /** Every character of `s` is one the UUID pattern consumes. */
  predicate AllUuidChars(s: string)
  {
    forall k :: 0 <= k < |s| ==> UuidChar(s[k])
  }

  /** If the replaced text starts with `w`, whose last character no UUID holds, so did the
      original: a replacement made of UUID characters cannot supply that prefix. */
  lemma {:induction false} ReplaceAllStartsWith(x: string, pat: string, rep: string, w: string)
    requires |pat| > 0 && 0 < |w| <= |rep| && !UuidChar(w[|w| - 1]) && AllUuidChars(rep)
    ensures OccursAt(ReplaceAll(x, pat, rep), 0, w) ==> OccursAt(x, 0, w)
    decreases |x|
  {
    var r := ReplaceAll(x, pat, rep);
    if OccursAt(r, 0, w) && |x| >= |pat| {
      assert r[|w| - 1] == w[|w| - 1];
      assert x[..|pat|] != pat;
      var t := ReplaceAll(x[1..], pat, rep);
      assert r == [x[0]] + t;
      if |w| > 1 {
        assert t[..|w| - 1] == w[1..];
        ReplaceAllStartsWith(x[1..], pat, rep, w[1..]);
        assert x[..|w|] == [x[0]] + x[1..][..|w| - 1];
      }
    }
  }

  /** Text free of the pattern stays free of it behind a prefix that lacks the pattern's first
      character. */
  lemma NoneAfterPrefix(u: string, rt: string, pat: string)
    requires |pat| > 0 && forall k :: 0 <= k < |u| ==> u[k] != pat[0]
    requires forall i: nat :: !OccursAt(rt, i, pat)
    ensures forall i: nat :: !OccursAt(u + rt, i, pat)
  {
    forall i: nat ensures !OccursAt(u + rt, i, pat) {
      if i < |u| {
        assert i + |pat| <= |u + rt| ==> (u + rt)[i..i + |pat|][0] == u[i];
      } else {
        var j := i - |u|;
        assert !OccursAt(rt, j, pat);
        assert i + |pat| <= |u + rt| ==> (u + rt)[i..i + |pat|] == rt[j..j + |pat|];
      }
    }
  }

  /** Text free of the pattern stays free of it behind one character, unless that character
      and the text's start spell the pattern. */
  lemma NoneAfterChar(c: char, rt: string, pat: string)
    requires |pat| >= 2 && !(c == pat[0] && OccursAt(rt, 0, pat[1..]))
    requires forall i: nat :: !OccursAt(rt, i, pat)
    ensures forall i: nat :: !OccursAt([c] + rt, i, pat)
  {
    forall i: nat ensures !OccursAt([c] + rt, i, pat) {
      if i > 0 {
        var j := i - 1;
        assert !OccursAt(rt, j, pat);
        assert i + |pat| <= 1 + |rt| ==> ([c] + rt)[i..i + |pat|] == rt[j..j + |pat|];
      }
    }
  }

  /** Replacing a pattern that starts and ends with characters no UUID holds, by text made of
      UUID characters, leaves no occurrence of the pattern behind: none can start inside, end
      inside or span a replacement. */
  lemma {:induction false} ReplaceAllLeavesNone(s: string, pat: string, rep: string)
    requires 2 <= |pat| <= |rep| && AllUuidChars(rep)
    requires !UuidChar(pat[0]) && !UuidChar(pat[|pat| - 1])
    ensures forall i: nat :: !OccursAt(ReplaceAll(s, pat, rep), i, pat)
    decreases |s|
  {
    if |s| >= |pat| {
      if s[..|pat|] == pat {
        var t := s[|pat|..];
        ReplaceAllLeavesNone(t, pat, rep);
        NoneAfterPrefix(rep, ReplaceAll(t, pat, rep), pat);
      } else {
        var t := s[1..];
        ReplaceAllLeavesNone(t, pat, rep);
        ReplaceAllStartsWith(t, pat, rep, pat[1..]);
        assert s[..|pat|] == [s[0]] + t[..|pat| - 1];
        NoneAfterChar(s[0], ReplaceAll(t, pat, rep), pat);
      }
    }
  }

  /** A UUID is made of UUID characters. */
  lemma UuidIsUuidChars(u: string)
    requires IsUuid(u)
    ensures AllUuidChars(u)
  {
    IsUuidChars(u);
  }

  /** The placeholder pass leaves no `placeholder` behind: the text it puts in is a UUID, and
      `placeholder` starts with `p` and ends with `r`, neither of which a UUID contains. */
  lemma PlaceholderPassLeavesNone(s: string, id: string)
    requires IsUuid(id)
    ensures !Includes(ReplaceAll(s, Placeholder, id), Placeholder)
  {
    UuidIsUuidChars(id);
    ReplaceAllLeavesNone(s, Placeholder, id);
  }

  /** After `updateCashPaymentTestData`'s rewrite the text holds no `placeholder`. */
  lemma CashRewriteLeavesNoPlaceholder(content: string, id: string)
    requires IsUuid(id)
    ensures !Includes(CashRewrite(content, id), Placeholder)
  {
    PlaceholderPassLeavesNone(ReplaceUuids(StripWorkflowAnnotations(content), id), id);
  }

  /** After `updateCashPaymentTestDataWithRealOrder`'s rewrite the text holds no `placeholder`. */
  lemma RealOrderRewriteLeavesNoPlaceholder(content: string, id: string)
    requires IsUuid(id)
    ensures !Includes(RealOrderRewrite(content, id), Placeholder)
  {
    PlaceholderPassLeavesNone(ReplaceUuids(content, id), id);
  }

  /** `updateTestData` makes no placeholder pass: a text with a `placeholder` and without commas
      and dashes (so without annotations and UUIDs) comes out unchanged. */
  lemma TestDataRewriteKeepsPlaceholder(content: string, id: string)
    requires ',' !in content && '-' !in content
    ensures TestDataRewrite(content, id) == content
  {
    StripNoComma(content);
    ReplaceUuidsNoDash(content, id);
  }

  /** A URL carrying the id contains the id. */
  lemma UrlMatchIncludesId(s: string, id: string)
    requires CountMatches(s, UrlPrefix(id)) > 0
    ensures Includes(s, id)
  {
    var p := UrlPrefix(id);
    var i := CountedOccurs(s, p);
    var a := |HostBase| + 1;
    assert p[a..a + |id|] == id;
    SliceOfSlice(s, i, i + |p|, a, a + |id|);
    assert OccursAt(s, i + a, id);
  }

  /** The id check of the cash-payment updaters is implied by the URL check, so they fail
      exactly when fewer than three `https://test.pay.felixpago.com/<id>/` URLs remain, and
      the URL message is the one reported whenever the text still holds the id. */
  lemma CashCheckIsUrlCount(updated: string, id: string)
    requires |id| > 0
    ensures CashCheck(updated, id).Success? <==> CountMatches(updated, UrlPrefix(id)) >= 3
    ensures CashCheck(updated, id).Failure? && Includes(updated, id)
      ==> CashCheck(updated, id) == Failure(UrlsError(id))
  {
    if CountMatches(updated, UrlPrefix(id)) >= 3 {
      UrlMatchIncludesId(updated, id);
    }
  }

  /** Without a UUID in the text the UUID pass changes nothing, and the id, itself a UUID,
      does not occur. */
  lemma NoUuidNoId(t: string, id: string)
    requires IsUuid(id) && FirstUuidFrom(t, 0).None?
    ensures !Includes(ReplaceUuids(t, id), id)
  {
    ReplaceUuidsNoMatch(t, id, 0);
    assert t[0..] == t;
    forall i: nat | i + 36 <= |t| ensures !OccursAt(t, i, id) {
      UuidAtSlice(t, i, i + 36, 0);
    }
  }

  /** The first UUID of the text is replaced by the id. */
  lemma FirstUuidGivesId(t: string, id: string, p: nat)
    requires FirstUuidFrom(t, 0) == Some(p)
    ensures Includes(ReplaceUuids(t, id), id)
  {
    assert t[0..] == t;
    ReplaceUuidsStep(t, id, 0, p, ReplaceUuids(t[p + 36..], id));
    assert t[0..p] + id + ReplaceUuids(t[p + 36..], id) == ReplaceUuids(t, id);
    assert OccursAt(ReplaceUuids(t, id), p, id);
  }

  /** `updateTestData`'s check fails exactly when the text left after the annotation pass holds
      no UUID at all. */
  lemma TestDataCheckFailsIffNoUuid(content: string, id: string)
    requires IsUuid(id)
    ensures TestDataCheck(TestDataRewrite(content, id), id).Failure?
      <==> FirstUuidFrom(StripWorkflowAnnotations(content), 0).None?
  {
    var t := StripWorkflowAnnotations(content);
    match FirstUuidFrom(t, 0)
    case None => NoUuidNoId(t, id);
    case Some(p) => FirstUuidGivesId(t, id, p);
  }
}
