/**
 * The confirmation message of services/geminiService.ts: the payment-method phrase, the
 * fixed fallback template used when the text-generation service fails, and the default
 * for an empty reply. The service call itself is not modelled; its outcome is an input.
 */
module Messages {
  import opened Wrappers
  import opened Types
  import opened Decimal

  /** How a template string interpolates an optional field: an absent one reads "undefined". */
  function Show(o: Option<string>): string {
    if o.Some? then o.value else "undefined"
  }

  /** The phrase describing how the rent was paid. */
  function PaymentDetails(r: RentRecord): (d: string)
    ensures d == "in Cash" <==> r.paymentMethod == Cash
    ensures r.paymentMethod != Cash ==> |d| > 4 && d[..4] == "via "
    ensures r.paymentMethod == MFS ==> d[4..] == "MFS (" + Show(r.mfsNumber) + ")"
    ensures r.paymentMethod == Bank ==> d[4..] == Show(r.bankName) + " (" + Show(r.branch) + ")"
  {
    if r.paymentMethod.Bank? then
      var d := "via " + Show(r.bankName) + " (" + Show(r.branch) + ")";
      assert d[0] == 'v';
      assert d[..4] == "via " && d[4..] == Show(r.bankName) + " (" + Show(r.branch) + ")";
      d
    else if r.paymentMethod.MFS? then
      var d := "via MFS (" + Show(r.mfsNumber) + ")";
      assert d[0] == 'v';
      assert d[..4] == "via " && d[4..] == "MFS (" + Show(r.mfsNumber) + ")";
      d
    else "in Cash"
  }

  const TAKA: string := "\U{09F3}"

  const DEFAULT_REPLY: string := "Thank you for your rent payment!"

  /** The message built from local fields alone when the service call raises an error. */
  function FallbackMessage(r: RentRecord): (m: string)
    ensures |m| > 27 + |r.tenantName| + |r.rentMonth| + |r.receiptNumber|
    ensures m[..3 + |r.tenantName|] == "Hi " + r.tenantName
    ensures m[|m| - 24..] == ". Sent via AIT SOLUTION."
  {
    "Hi " + r.tenantName + ", thank you for the rent payment of " + TAKA + IntToString(r.rentAmount) +
    " for " + r.rentMonth + " received " + PaymentDetails(r) + ". Receipt: " + r.receiptNumber +
    ". Sent via AIT SOLUTION."
  }

  /** What the text-generation call did: it replied with a text, possibly absent, or it raised an error. */
  datatype Draft = Replied(text: Option<string>) | Failed

  /** The message `generateProfessionalMessage` resolves to, for a given outcome of the service call. */
  function ConfirmationMessage(r: RentRecord, draft: Draft): (m: string)
    ensures m != ""
    ensures draft.Failed? ==> m == FallbackMessage(r)
    ensures draft.Replied? && draft.text.Some? && draft.text.value != "" ==> m == draft.text.value
    ensures draft.Replied? && (draft.text.None? || draft.text.value == "") ==> m == DEFAULT_REPLY
  {
    match draft
    case Failed => FallbackMessage(r)
    case Replied(text) => if text.Some? && text.value != "" then text.value else DEFAULT_REPLY
  }

  /** `part` occurs in `whole` at position k. */
  predicate OccursAt(whole: string, part: string, k: nat) {
    k + |part| <= |whole| && whole[k..k + |part|] == part
  }

  /** `part` occurs in `whole` at some position. */
  predicate Contains(whole: string, part: string) {
    exists k: nat :: k <= |whole| && OccursAt(whole, part, k)
  }

  lemma ContainsSuffix(a: string, part: string)
    ensures Contains(a + part, part)
  {
    assert OccursAt(a + part, part, |a|);
  }

  lemma ContainsExtend(w: string, part: string, b: string)
    requires Contains(w, part)
    ensures Contains(w + b, part)
  {
    var k: nat :| k <= |w| && OccursAt(w, part, k);
    assert (w + b)[k..k + |part|] == w[k..k + |part|];
    assert OccursAt(w + b, part, k);
  }

  /** The fallback names the tenant, the amount, the month, the payment phrase and the receipt number. */
  lemma FallbackShowsRecord(r: RentRecord)
    ensures var m := FallbackMessage(r);
            && Contains(m, r.tenantName) && Contains(m, IntToString(r.rentAmount))
            && Contains(m, r.rentMonth) && Contains(m, PaymentDetails(r))
            && Contains(m, r.receiptNumber)
  {
    var name, amount, month, details, receipt :=
      r.tenantName, IntToString(r.rentAmount), r.rentMonth, PaymentDetails(r), r.receiptNumber;
    var m0 := "Hi " + name;
    var m1 := m0 + ", thank you for the rent payment of " + TAKA + amount;
    var m2 := m1 + " for " + month;
    var m3 := m2 + " received " + details;
    var m4 := m3 + ". Receipt: " + receipt;
    var m := m4 + ". Sent via AIT SOLUTION.";
    assert m == FallbackMessage(r);
    ContainsSuffix("Hi ", name);
    ContainsExtend(m0, name, ", thank you for the rent payment of ");
    ContainsExtend(m0 + ", thank you for the rent payment of ", name, TAKA);
    ContainsExtend(m0 + ", thank you for the rent payment of " + TAKA, name, amount);
    ContainsSuffix(m0 + ", thank you for the rent payment of " + TAKA, amount);
    ContainsExtend(m1, name, " for ");
    ContainsExtend(m1, amount, " for ");
    ContainsExtend(m1 + " for ", name, month);
    ContainsExtend(m1 + " for ", amount, month);
    ContainsSuffix(m1 + " for ", month);
    ContainsExtend(m2, name, " received ");
    ContainsExtend(m2, amount, " received ");
    ContainsExtend(m2, month, " received ");
    ContainsExtend(m2 + " received ", name, details);
    ContainsExtend(m2 + " received ", amount, details);
    ContainsExtend(m2 + " received ", month, details);
    ContainsSuffix(m2 + " received ", details);
    ContainsExtend(m3, name, ". Receipt: ");
    ContainsExtend(m3, amount, ". Receipt: ");
    ContainsExtend(m3, month, ". Receipt: ");
    ContainsExtend(m3, details, ". Receipt: ");
    ContainsExtend(m3 + ". Receipt: ", name, receipt);
    ContainsExtend(m3 + ". Receipt: ", amount, receipt);
    ContainsExtend(m3 + ". Receipt: ", month, receipt);
    ContainsExtend(m3 + ". Receipt: ", details, receipt);
    ContainsSuffix(m3 + ". Receipt: ", receipt);
    ContainsExtend(m4, name, ". Sent via AIT SOLUTION.");
    ContainsExtend(m4, amount, ". Sent via AIT SOLUTION.");
    ContainsExtend(m4, month, ". Sent via AIT SOLUTION.");
    ContainsExtend(m4, details, ". Sent via AIT SOLUTION.");
    ContainsExtend(m4, receipt, ". Sent via AIT SOLUTION.");
  }

  /** The fallback depends on nothing but those five parts of the record. */
  lemma FallbackDeterministic(r1: RentRecord, r2: RentRecord)
    requires r1.tenantName == r2.tenantName && r1.rentAmount == r2.rentAmount
    requires r1.rentMonth == r2.rentMonth && r1.receiptNumber == r2.receiptNumber
    requires PaymentDetails(r1) == PaymentDetails(r2)
    ensures FallbackMessage(r1) == FallbackMessage(r2)
  {
  }

  /** A cash payment of 5000 by Karim for January, receipt REC-123456, while the service is down. */
  lemma KarimFallback(r: RentRecord)
    requires r.tenantName == "Karim" && r.rentAmount == 5000 && r.rentMonth == "January"
    requires r.paymentMethod == Cash && r.receiptNumber == "REC-123456"
    ensures ConfirmationMessage(r, Failed) ==
            "Hi " + "Karim" + ", thank you for the rent payment of " + TAKA + "5000" + " for " + "January" +
            " received " + "in Cash" + ". Receipt: " + "REC-123456" + ". Sent via AIT SOLUTION."
    ensures var m := ConfirmationMessage(r, Failed);
            Contains(m, "Karim") && Contains(m, "5000") && Contains(m, "January") &&
            Contains(m, "in Cash") && Contains(m, "REC-123456")
  {
    assert IntToString(5000) == "5000" by {
      assert DecimalString(5) == "5";
      assert DecimalString(50) == "50";
      assert DecimalString(500) == "500";
      assert DecimalString(5000) == "5000";
    }
    assert PaymentDetails(r) == "in Cash";
    FallbackShowsRecord(r);
  }

  /** A bank payment carries no bank name or branch, so its phrase reads "via undefined (undefined)". */
  lemma BankPhraseWithoutBankFields(r: RentRecord)
    requires r.paymentMethod == Bank && r.bankName.None? && r.branch.None?
    ensures PaymentDetails(r) == "via undefined (undefined)"
  {
  }
}
