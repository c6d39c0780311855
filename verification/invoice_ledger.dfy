/**
 * src/hooks/useInvoiceForm.js: the invoice editor's state (the invoice
 * fields, the line items, the logo and the tax settings), the operations on
 * its ledger of line items, and the snapshot it persists after every change
 * and reads back on start.
 */
module InvoiceLedger {
  import opened JsCore
  import opened Calendar
  import opened Documents

  /** `updateLineItem(id, field, value)` for the fields the line editor edits, with the value stored. */
  datatype LineEdit = Description(text: string) | Quantity(quantity: real) | Rate(rate: real) | Amount(amount: real)

  /** The line a new ledger starts with. */
  const InitialLine := InvoiceLine(1, "", 1.0, 0.0, 0.0)

  const InitialTax := TaxSettings(Percentage, Blank)

  /** The line `addLineItem` appends, under a fresh id. */
  function BlankLine(id: int): InvoiceLine
  {
    InvoiceLine(id, "", 1.0, 0.0, 0.0)
  }

  /**
   * The invoice a new editor shows: no number, dated today and due 30 days
   * later, with every party and remittance field empty and no currency.
   */
  function InitialInvoiceData(stamp: Stamp): (d: InvoiceData)
    ensures Text(d.fields, "invoiceNumber") == ""
    ensures Text(d.fields, "date") == stamp.date && Text(d.fields, "dueDate") == stamp.dueDate
    ensures d.sections.Keys == {"companyDetails", "clientDetails", "remittanceInfo"}
    ensures forall name, key :: Text(Section(d.sections, name), key) == ""
    ensures d.currency.None?
  {
    var company := map["name" := "", "address" := "", "email" := "", "phone" := ""];
    var client := map["name" := "", "address" := "", "email" := ""];
    var remittance := map["bankName" := "", "accountName" := "", "routingNumber" := "", "accountNumber" := "",
                          "swiftCode" := "", "paymentTerms" := "", "additionalInstructions" := ""];
    InvoiceData(map["invoiceNumber" := "", "date" := stamp.date, "dueDate" := stamp.dueDate],
                map["companyDetails" := company, "clientDetails" := client, "remittanceInfo" := remittance],
                None)
  }

  /** `lineItems.filter(item => item.id !== id)`. */
  function RemoveLine(items: seq<InvoiceLine>, id: int): (r: seq<InvoiceLine>)
    ensures |r| <= |items|
    ensures forall x :: x in r <==> x in items && x.id != id
  {
    if |items| == 0 then []
    else
      var front := RemoveLine(items[..|items| - 1], id);
      var last := items[|items| - 1];
      assert items == items[..|items| - 1] + [last];
      if last.id != id then front + [last] else front
  }

  /** Removing works piece by piece, so the remaining lines keep their order. */
  lemma {:induction false} RemoveLineAppend(a: seq<InvoiceLine>, b: seq<InvoiceLine>, id: int)
    ensures RemoveLine(a + b, id) == RemoveLine(a, id) + RemoveLine(b, id)
    decreases |b|
  {
    if |b| == 0 {
      assert a + b == a;
    } else {
      assert (a + b)[..|a + b| - 1] == a + b[..|b| - 1];
      RemoveLineAppend(a, b[..|b| - 1], id);
    }
  }

  /** Removing an id no line has leaves the ledger as it was. */
  lemma {:induction false} RemoveAbsentLine(items: seq<InvoiceLine>, id: int)
    requires forall i :: 0 <= i < |items| ==> items[i].id != id
    ensures RemoveLine(items, id) == items
  {
    if |items| > 0 {
      RemoveAbsentLine(items[..|items| - 1], id);
      assert items == items[..|items| - 1] + [items[|items| - 1]];
    }
  }

  /**
   * `{ ...item, [field]: value }`, with the amount recomputed as
   * quantity * rate only when the field is the quantity or the rate: the
   * other fields keep their values, and a description edit leaves the amount
   * as it was even when it is stale.
   */
  function ApplyEdit(item: InvoiceLine, edit: LineEdit): (r: InvoiceLine)
    ensures r.id == item.id
    ensures r.description == if edit.Description? then edit.text else item.description
    ensures r.quantity == if edit.Quantity? then edit.quantity else item.quantity
    ensures r.rate == if edit.Rate? then edit.rate else item.rate
    ensures r.amount == if edit.Quantity? || edit.Rate? then r.quantity * r.rate
                        else if edit.Amount? then edit.amount else item.amount
  {
    match edit
    case Description(t) => item.(description := t)
    case Quantity(q) => item.(quantity := q, amount := q * item.rate)
    case Rate(v) => item.(rate := v, amount := item.quantity * v)
    case Amount(a) => item.(amount := a)
  }

  /** `lineItems.map(...)`: the lines with the id are edited, the others kept, in place. */
  function UpdateLine(items: seq<InvoiceLine>, id: int, edit: LineEdit): (r: seq<InvoiceLine>)
    ensures |r| == |items|
    ensures forall i :: 0 <= i < |items| ==> r[i] == if items[i].id == id then ApplyEdit(items[i], edit) else items[i]
  {
    seq(|items|, i requires 0 <= i < |items| => if items[i].id == id then ApplyEdit(items[i], edit) else items[i])
  }

  /** The stored amount is the line's quantity times its rate. */
  predicate AmountConsistent(item: InvoiceLine)
  {
    item.amount == item.quantity * item.rate
  }

  predicate AmountsConsistent(items: seq<InvoiceLine>)
  {
    forall i :: 0 <= i < |items| ==> AmountConsistent(items[i])
  }

  /**
   * The ledger operations keep every stored amount equal to quantity * rate,
   * except an edit of the amount itself, which the line editor never makes.
   */
  lemma LedgerKeepsAmounts(items: seq<InvoiceLine>, id: int, edit: LineEdit, freshId: int)
    requires AmountsConsistent(items)
    ensures AmountsConsistent(items + [BlankLine(freshId)])
    ensures AmountsConsistent(RemoveLine(items, id))
    ensures !edit.Amount? ==> AmountsConsistent(UpdateLine(items, id, edit))
  {
    var added := items + [BlankLine(freshId)];
    assert forall i :: 0 <= i < |items| ==> added[i] == items[i];
    RemoveKeepsAmounts(items, id);
    if !edit.Amount? {
      UpdateKeepsAmounts(items, id, edit);
    }
  }

  lemma {:induction false} RemoveKeepsAmounts(items: seq<InvoiceLine>, id: int)
    requires AmountsConsistent(items)
    ensures AmountsConsistent(RemoveLine(items, id))
  {
    if |items| > 0 {
      var front, last := items[..|items| - 1], items[|items| - 1];
      assert AmountsConsistent(front) by {
        assert forall i :: 0 <= i < |front| ==> front[i] == items[i];
      }
      RemoveKeepsAmounts(front, id);
      var rest := RemoveLine(front, id);
      if last.id != id {
        assert RemoveLine(items, id) == rest + [last];
        assert forall i :: 0 <= i < |rest| ==> (rest + [last])[i] == rest[i];
      } else {
        assert RemoveLine(items, id) == rest;
      }
    }
  }

  lemma UpdateKeepsAmounts(items: seq<InvoiceLine>, id: int, edit: LineEdit)
    requires AmountsConsistent(items) && !edit.Amount?
    ensures AmountsConsistent(UpdateLine(items, id, edit))
  {
    var u := UpdateLine(items, id, edit);
    forall i | 0 <= i < |u|
      ensures AmountConsistent(u[i])
    {
      if items[i].id == id {
        assert u[i] == ApplyEdit(items[i], edit);
      }
    }
  }

  /** A stored amount goes stale once the rate is edited directly on the object, and a description edit does not repair it. */
  lemma DescriptionKeepsStaleAmount()
    ensures var stale := InvoiceLine(7, "a", 2.0, 3.0, 0.0);
            && !AmountsConsistent([stale])
            && !AmountsConsistent(UpdateLine([stale], 7, Description("b")))
            && AmountsConsistent(UpdateLine([stale], 7, Quantity(2.0)))
  {
    var stale := InvoiceLine(7, "a", 2.0, 3.0, 0.0);
    assert UpdateLine([stale], 7, Description("b"))[0].amount == 0.0;
    assert UpdateLine([stale], 7, Quantity(2.0))[0].amount == 6.0;
  }

  // ---------------------------------------------------------------------
  // Persistence

  /** What is stored, and read back on start: the tax settings may be missing in older data. */
  datatype Snapshot = Snapshot(invoiceData: InvoiceData, lineItems: seq<InvoiceLine>, logo: Option<string>,
                               taxSettings: Option<TaxSettings>)

  /** The stored tax settings: an empty value is written as 0, anything else as it is. */
  function PersistedTax(tax: TaxSettings): (r: TaxSettings)
    ensures r.kind == tax.kind
    ensures r.value != Blank
    ensures tax.value != Blank ==> r.value == tax.value
    ensures TaxNumber(r.value) == TaxNumber(tax.value)
  {
    tax.(value := if tax.value == Blank then Num(0.0) else tax.value)
  }

  /** The editor's state, `invoiceData`, `lineItems`, `logo` and `taxSettings` of the hook. */
  class InvoiceFormState {
    var invoiceData: InvoiceData
    var lineItems: seq<InvoiceLine>
    var logo: Option<string>
    var taxSettings: TaxSettings

    /** The state on first render, dated with today's clock readings. */
    constructor(stamp: Stamp)
      ensures invoiceData == InitialInvoiceData(stamp)
      ensures lineItems == [InitialLine] && logo == None && taxSettings == InitialTax
    {
      invoiceData := InitialInvoiceData(stamp);
      lineItems := [InitialLine];
      logo := None;
      taxSettings := InitialTax;
    }

    /** The snapshot the store effect writes. */
    function Persisted(): (s: Snapshot)
      reads this
      ensures s.invoiceData == invoiceData && s.lineItems == lineItems && s.logo == logo
      ensures s.taxSettings == Some(PersistedTax(taxSettings))
    {
      Snapshot(invoiceData, lineItems, logo, Some(PersistedTax(taxSettings)))
    }

    /** The load effect: stored data replaces the state; stored tax settings only when present. */
    method Load(stored: Option<Snapshot>)
      modifies this
      ensures stored.None? ==> invoiceData == old(invoiceData) && lineItems == old(lineItems) && logo == old(logo)
      ensures stored.Some? ==>
                invoiceData == stored.value.invoiceData && lineItems == stored.value.lineItems && logo == stored.value.logo
      ensures taxSettings == if stored.Some? && stored.value.taxSettings.Some? then stored.value.taxSettings.value
                             else old(taxSettings)
    {
      if stored.Some? {
        invoiceData := stored.value.invoiceData;
        lineItems := stored.value.lineItems;
        logo := stored.value.logo;
        if stored.value.taxSettings.Some? {
          taxSettings := stored.value.taxSettings.value;
        }
      }
    }

    method SetInvoiceData(d: InvoiceData)
      modifies this
      ensures invoiceData == d
      ensures lineItems == old(lineItems) && logo == old(logo) && taxSettings == old(taxSettings)
    {
      invoiceData := d;
    }

    method SetLineItems(items: seq<InvoiceLine>)
      modifies this
      ensures lineItems == items
      ensures invoiceData == old(invoiceData) && logo == old(logo) && taxSettings == old(taxSettings)
    {
      lineItems := items;
    }

    method SetTaxSettings(t: TaxSettings)
      modifies this
      ensures taxSettings == t
      ensures invoiceData == old(invoiceData) && lineItems == old(lineItems) && logo == old(logo)
    {
      taxSettings := t;
    }

    method SetLogo(l: Option<string>)
      modifies this
      ensures logo == l
      ensures invoiceData == old(invoiceData) && lineItems == old(lineItems) && taxSettings == old(taxSettings)
    {
      logo := l;
    }

    /** `addLineItem()`, with `Date.now()` given as the fresh id. */
    method AddLineItem(freshId: int)
      modifies this
      ensures lineItems == old(lineItems) + [BlankLine(freshId)]
      ensures invoiceData == old(invoiceData) && logo == old(logo) && taxSettings == old(taxSettings)
    {
      lineItems := lineItems + [BlankLine(freshId)];
    }

    /** `removeLineItem(id)`. */
    method RemoveLineItem(id: int)
      modifies this
      ensures lineItems == RemoveLine(old(lineItems), id)
      ensures invoiceData == old(invoiceData) && logo == old(logo) && taxSettings == old(taxSettings)
    {
      lineItems := RemoveLine(lineItems, id);
    }

    /** `updateLineItem(id, field, value)`. */
    method UpdateLineItem(id: int, edit: LineEdit)
      modifies this
      ensures lineItems == UpdateLine(old(lineItems), id, edit)
      ensures invoiceData == old(invoiceData) && logo == old(logo) && taxSettings == old(taxSettings)
    {
      lineItems := UpdateLine(lineItems, id, edit);
    }
  }

  /**
   * Reading back a persisted snapshot restores the editor: invoice, lines and
   * logo as they were, and tax settings that compute the same tax (an empty
   * value comes back as 0).
   */
  method PersistRoundTrip(form: InvoiceFormState, other: InvoiceFormState)
    modifies other
    ensures other.invoiceData == form.invoiceData && other.lineItems == form.lineItems && other.logo == form.logo
    ensures other.taxSettings.kind == form.taxSettings.kind
    ensures TaxNumber(other.taxSettings.value) == TaxNumber(form.taxSettings.value)
  {
    var snapshot := form.Persisted();
    other.Load(Some(snapshot));
  }
}
