/**
 * src/components/DemoDataButton.jsx: the check applied to generated demo
 * data and the step that loads it into the invoice editor only when the
 * check passes. The generator itself is random and is a parameter here.
 */
module DemoData {
  import opened JsCore
  import opened Documents
  import opened InvoiceLedger

  /** The `lineItems` property: absent or falsy, present but not an array, or an array. */
  datatype LineItemsField = MissingItems | NotAnArray | Items(items: seq<InvoiceLine>)

  /**
   * The object the generator resolves to. An absent or falsy property is
   * None; `logo` may be anything, including absent.
   */
  datatype DemoResult = DemoResult(
    invoiceData: Option<InvoiceData>,
    lineItems: LineItemsField,
    taxSettings: Option<TaxSettings>,
    logo: Option<string>)

  const NoDataMessage: string := "No data returned"
  const MissingInvoiceDataMessage: string := "Missing invoiceData"
  const BadLineItemsMessage: string := "Missing or invalid lineItems"
  const MissingTaxMessage: string := "Missing taxSettings"

  /** The data carries everything the editor needs. */
  predicate Complete(data: DemoResult)
  {
    data.invoiceData.Some? && data.lineItems.Items? && data.taxSettings.Some?
  }

  /**
   * `validateGeneratedData(data)`, with the message it logs: the first check
   * that fails, in the order nothing, invoiceData, lineItems, taxSettings;
   * None when the data passes.
   */
  function ValidationFailure(data: Option<DemoResult>): (r: Option<string>)
    ensures r.None? <==> data.Some? && Complete(data.value)
    ensures data.None? ==> r == Some(NoDataMessage)
    ensures data.Some? && data.value.invoiceData.None? ==> r == Some(MissingInvoiceDataMessage)
    ensures data.Some? && data.value.invoiceData.Some? && !data.value.lineItems.Items? ==> r == Some(BadLineItemsMessage)
    ensures data.Some? && data.value.invoiceData.Some? && data.value.lineItems.Items? && data.value.taxSettings.None? ==>
              r == Some(MissingTaxMessage)
  {
    if data.None? then Some(NoDataMessage)
    else if data.value.invoiceData.None? then Some(MissingInvoiceDataMessage)
    else if !data.value.lineItems.Items? then Some(BadLineItemsMessage)
    else if data.value.taxSettings.None? then Some(MissingTaxMessage)
    else None
  }

  /** The logo is never looked at: changing it does not change the verdict. */
  lemma LogoNotChecked(data: DemoResult, logo: Option<string>)
    ensures ValidationFailure(Some(data.(logo := logo))) == ValidationFailure(Some(data))
  {
  }

  /** An empty array of line items passes; only a missing or non-array value fails. */
  lemma EmptyLinesPass(data: DemoResult)
    requires data.invoiceData.Some? && data.taxSettings.Some?
    ensures ValidationFailure(Some(data.(lineItems := Items([])))).None?
    ensures ValidationFailure(Some(data.(lineItems := NotAnArray))) == Some(BadLineItemsMessage)
  {
  }

  /**
   * `handleGenerateDemo`, after the generator has resolved to `result`: on
   * a failed check nothing is set and false is returned (the error toast);
   * otherwise the four setters run, in order, and true is returned.
   */
  method ApplyDemoData(form: InvoiceFormState, result: Option<DemoResult>) returns (loaded: bool)
    modifies form
    ensures loaded <==> ValidationFailure(result).None?
    ensures !loaded ==>
              && form.invoiceData == old(form.invoiceData) && form.lineItems == old(form.lineItems)
              && form.taxSettings == old(form.taxSettings) && form.logo == old(form.logo)
    ensures loaded ==>
              && form.invoiceData == result.value.invoiceData.value
              && form.lineItems == result.value.lineItems.items
              && form.taxSettings == result.value.taxSettings.value
              && form.logo == result.value.logo
  {
    if ValidationFailure(result).Some? {
      return false;
    }
    var data := result.value;
    form.SetInvoiceData(data.invoiceData.value);
    form.SetLineItems(data.lineItems.items);
    form.SetTaxSettings(data.taxSettings.value);
    form.SetLogo(data.logo);
    loaded := true;
  }
}
