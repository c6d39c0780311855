/**
 * src/domains/invoice/components/InvoicePreview.jsx: what the printable
 * invoice shows: its totals, each row's amount, the tax label and which
 * parts of the payment instructions appear.
 */
module InvoicePreview {
  import opened JsCore
  import opened Documents
  import opened InvoiceLedger
  import opened InvoiceForm

  /** The tax settings the preview falls back to when none are passed. */
  const DefaultTax := TaxSettings(Percentage, Num(0.0))

  function EffectiveTax(settings: Option<TaxSettings>): TaxSettings
  {
    if settings.Some? then settings.value else DefaultTax
  }

  /** The amount a row shows: quantity * rate, computed afresh. */
  function RowAmount(item: InvoiceLine): real
  {
    item.quantity * item.rate
  }

  /**
   * `calculateSubtotal`, `calculateTax` and `calculateTotal` of the preview:
   * they agree with the editor's totals, the subtotal is the sum of the rows
   * shown, and with the default settings the tax is 0 and the total the subtotal.
   */
  function PreviewTotals(items: seq<InvoiceLine>, settings: Option<TaxSettings>): (r: (real, real, real))
    ensures r.0 == Subtotal(items) && r.2 == r.0 + r.1
    ensures r.2 == Total(items, EffectiveTax(settings))
    ensures settings.None? ==> r.1 == 0.0 && r.2 == r.0
    ensures EffectiveTax(settings).kind == Fixed ==> r.1 == TaxNumber(EffectiveTax(settings).value)
  {
    var subtotal := Subtotal(items);
    var tax := Tax(subtotal, EffectiveTax(settings));
    (subtotal, tax, subtotal + tax)
  }

  /** The rows' amounts sum to the subtotal, whatever amounts are stored. */
  lemma {:induction false} RowsSumToSubtotal(items: seq<InvoiceLine>, stored: seq<real>)
    requires |stored| == |items|
    ensures var restamped := seq(|items|, i requires 0 <= i < |items| => items[i].(amount := stored[i]));
            Subtotal(restamped) == Subtotal(items)
  {
    var restamped := seq(|items|, i requires 0 <= i < |items| => items[i].(amount := stored[i]));
    SubtotalOfSamePrices(restamped, items);
  }

  /** The stored amount and the row agree exactly when the amounts are kept consistent. */
  lemma RowsMatchConsistentAmounts(items: seq<InvoiceLine>)
    ensures AmountsConsistent(items) <==> forall i :: 0 <= i < |items| ==> RowAmount(items[i]) == items[i].amount
  {
  }

  /** A value the template treats as true: a number other than 0 (NaN and "" are false). */
  predicate Truthy(v: TaxValue)
  {
    v.Num? && v.v != 0.0
  }

  /** The tax label shows "(v%)" only for a percentage with a truthy value. */
  function TaxLabelRate(settings: TaxSettings): (r: Option<real>)
    ensures r.Some? <==> settings.kind == Percentage && Truthy(settings.value)
    ensures r.Some? ==> r.value == settings.value.v && r.value != 0.0
  {
    if settings.kind == Percentage && Truthy(settings.value) then Some(settings.value.v) else None
  }

  // ---------------------------------------------------------------------
  // Payment instructions

  /** The remittance fields with a row of their own, in the order they are laid out. */
  const RemittanceRowKeys: seq<string> :=
    ["bankName", "accountName", "routingNumber", "accountNumber", "swiftCode", "paymentTerms", "additionalInstructions"]

  /** The block appears when there is a bank name. */
  predicate PaymentBlockShown(remit: Fields)
  {
    Text(remit, "bankName") != ""
  }

  function NonEmptyKeys(remit: Fields, keys: seq<string>): (r: seq<string>)
    ensures forall k :: k in r <==> k in keys && Text(remit, k) != ""
  {
    if |keys| == 0 then []
    else
      var front := NonEmptyKeys(remit, keys[..|keys| - 1]);
      var last := keys[|keys| - 1];
      assert keys == keys[..|keys| - 1] + [last];
      if Text(remit, last) != "" then front + [last] else front
  }

  /**
   * The fields shown under "Payment Instructions", in layout order: none when
   * there is no bank name (whatever else is filled in), and otherwise exactly
   * the non-empty ones.
   */
  function ShownRemittance(remit: Fields): (r: seq<string>)
    ensures !PaymentBlockShown(remit) ==> r == []
    ensures PaymentBlockShown(remit) ==> forall k :: k in r <==> k in RemittanceRowKeys && Text(remit, k) != ""
    ensures PaymentBlockShown(remit) ==> |r| >= 1 && r[0] == "bankName"
  {
    if !PaymentBlockShown(remit) then []
    else
      var r := NonEmptyKeys(remit, RemittanceRowKeys);
      assert NonEmptyKeys(remit, RemittanceRowKeys[..1]) == ["bankName"];
      NonEmptyKeysPrefix(remit, RemittanceRowKeys[..1], RemittanceRowKeys[1..]);
      assert RemittanceRowKeys[..1] + RemittanceRowKeys[1..] == RemittanceRowKeys;
      r
  }

  lemma {:induction false} NonEmptyKeysPrefix(remit: Fields, a: seq<string>, b: seq<string>)
    ensures |NonEmptyKeys(remit, a)| <= |NonEmptyKeys(remit, a + b)|
    ensures NonEmptyKeys(remit, a + b)[..|NonEmptyKeys(remit, a)|] == NonEmptyKeys(remit, a)
    decreases |b|
  {
    if |b| == 0 {
      assert a + b == a;
    } else {
      assert (a + b)[..|a + b| - 1] == a + b[..|b| - 1];
      NonEmptyKeysPrefix(remit, a, b[..|b| - 1]);
    }
  }
}
