/**
 * The records the invoice editor and the purchase-order screens pass around.
 * JavaScript objects whose keys are fixed by the program are datatypes; the
 * objects the forms edit by input name (the invoice's and the purchase
 * order's top-level text fields and their nested sections such as
 * `companyDetails` or `vendor`) are string-keyed maps, so that an update by
 * name can be stated exactly.
 */
module Documents {
  import opened JsCore

  /** One line of an invoice as the invoice editor stores it. */
  datatype InvoiceLine = InvoiceLine(id: int, description: string, quantity: real, rate: real, amount: real)

  /** One line of a purchase order. */
  datatype POLine = POLine(id: int, description: string, quantity: real, unitPrice: real, totalPrice: real)

  /** `lineItems.reduce((sum, item) => sum + item.quantity * item.unitPrice, 0)`: what a purchase order's lines are worth. */
  function OrderValue(lines: seq<POLine>): real
  {
    if |lines| == 0 then 0.0 else OrderValue(lines[..|lines| - 1]) + LineValue(lines[|lines| - 1])
  }

  /** What one purchase-order line is worth: quantity * unitPrice. */
  function LineValue(item: POLine): real
  {
    item.quantity * item.unitPrice
  }

  /** An entry of the currency table: `{ symbol, code, name }`. */
  datatype Currency = Currency(symbol: string, code: string, name: string)

  /**
   * `invoiceData`: top-level text fields (`invoiceNumber`, `date`, `dueDate`),
   * the nested sections (`companyDetails`, `clientDetails`, `remittanceInfo`)
   * and the optional `currency` object.
   */
  datatype InvoiceData = InvoiceData(fields: Fields, sections: map<string, Fields>, currency: Option<Currency>)

  /**
   * `poData` without its line items: top-level text fields (`poNumber`,
   * `date`, `matchType`, `status`) and nested sections (`vendor`).
   */
  datatype PurchaseOrder = PurchaseOrder(fields: Fields, sections: map<string, Fields>, lineItems: seq<POLine>)

  /** A nested section read as the templates read it; a missing section reads as empty. */
  function Section(sections: map<string, Fields>, name: string): Fields
  {
    if name in sections then sections[name] else map[]
  }

  /** `taxSettings.type`. */
  datatype TaxType = Percentage | Fixed

  /** `taxSettings.value`: the empty string, a number, or NaN (what parseFloat(".") yields). */
  datatype TaxValue = Blank | Num(v: real) | NotANumber

  datatype TaxSettings = TaxSettings(kind: TaxType, value: TaxValue)

  /** `parseFloat(taxSettings.value) || 0`: the empty string and NaN count as 0. */
  function TaxNumber(v: TaxValue): real
  {
    match v
    case Num(x) => x
    case _ => 0.0
  }

  /** The `CURRENCIES` table, by code. */
  const Currencies: map<string, Currency> :=
    map["USD" := Currency("$", "USD", "US Dollar"),
        "CAD" := Currency("CA$", "CAD", "Canadian Dollar"),
        "EUR" := Currency("\U{20AC}", "EUR", "Euro"),
        "GBP" := Currency("\U{A3}", "GBP", "British Pound")]

  /** A rendered file (a PDF blob); its bytes are never inspected. */
  datatype Blob = Blob(bytes: seq<bv8>)

  /** `{ ...obj, [name]: value }` on a string-keyed object. */
  function SetField(f: Fields, name: string, value: string): (r: Fields)
    ensures Text(r, name) == value
    ensures forall k :: k != name ==> Text(r, k) == Text(f, k)
    ensures r.Keys == f.Keys + {name}
  {
    f[name := value]
  }
}
