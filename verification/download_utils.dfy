/**
 * src/domains/purchaseOrder/utils/downloadUtils.js: the purchase-order
 * download helpers. An invoice document is built from a purchase order and a
 * list of its lines; a purchase order is split over one to three partial
 * deliveries, one invoice each; and the download bundle holds the rendered
 * purchase order followed, once the order has left the draft status, by one
 * JSON file per partial invoice.
 */
module DownloadUtils {
  import opened JsCore
  import opened Calendar
  import opened Documents
  import opened Split

  /** The invoice object `generateInvoiceFromPO` returns: its fields and sections, and its lines. */
  datatype InvoiceDocument = InvoiceDocument(data: InvoiceData, lineItems: seq<InvoiceLine>)

  const Usd := Currency("$", "USD", "US Dollar")

  /** A purchase-order line as an invoice line: the unit price becomes the rate. */
  function InvoiceLineOf(item: POLine): InvoiceLine
  {
    InvoiceLine(item.id, item.description, item.quantity, item.unitPrice, item.quantity * item.unitPrice)
  }

  /** The issuer block: the vendor's name, address and email, and an empty phone. */
  function CompanyFromVendor(po: PurchaseOrder): Fields
  {
    var v := Section(po.sections, "vendor");
    map["name" := Text(v, "name"), "address" := Text(v, "address"), "email" := Text(v, "email"), "phone" := ""]
  }

  const ClientDetails: Fields :=
    map["name" := "Your Company Name", "address" := "Your Company Address", "email" := "your.email@company.com"]

  const RemittanceInfo: Fields :=
    map["bankName" := "", "accountName" := "", "routingNumber" := "", "accountNumber" := "",
        "swiftCode" := "", "paymentTerms" := "Net 30", "additionalInstructions" := ""]

  /**
   * `generateInvoiceFromPO(poData, lineItems, invoiceNumber)`, dated with
   * `stamp`: the number is used as given, the lines are mapped one to one
   * and in order, the issuer is the vendor, the client a fixed placeholder,
   * and the remittance block asks for payment within 30 days and is
   * otherwise empty.
   */
  function InvoiceFromPO(po: PurchaseOrder, items: seq<POLine>, invoiceNumber: string, stamp: Stamp): (d: InvoiceDocument)
    ensures Text(d.data.fields, "invoiceNumber") == invoiceNumber
  {
    var fields := map["invoiceNumber" := invoiceNumber, "date" := stamp.date, "dueDate" := stamp.dueDate];
    var sections := map["companyDetails" := CompanyFromVendor(po), "clientDetails" := ClientDetails,
                        "remittanceInfo" := RemittanceInfo];
    InvoiceDocument(InvoiceData(fields, sections, Some(Usd)),
                    seq(|items|, i requires 0 <= i < |items| => InvoiceLineOf(items[i])))
  }

  /**
   * What the converted invoice holds: the stamp's dates, US dollars, one
   * line per item in order with rate = unit price and amount = quantity x
   * rate, the vendor as issuer without a phone, and remittance terms of
   * "Net 30" with every other remittance field empty.
   */
  lemma InvoiceFromPOFacts(po: PurchaseOrder, items: seq<POLine>, invoiceNumber: string, stamp: Stamp)
    ensures var d := InvoiceFromPO(po, items, invoiceNumber, stamp);
            && Text(d.data.fields, "date") == stamp.date && Text(d.data.fields, "dueDate") == stamp.dueDate
            && d.data.currency == Some(Usd)
            && |d.lineItems| == |items|
    ensures var d := InvoiceFromPO(po, items, invoiceNumber, stamp);
            forall i :: 0 <= i < |items| ==>
              && d.lineItems[i].id == items[i].id
              && d.lineItems[i].description == items[i].description
              && d.lineItems[i].quantity == items[i].quantity
              && d.lineItems[i].rate == items[i].unitPrice
              && d.lineItems[i].amount == d.lineItems[i].quantity * d.lineItems[i].rate
    ensures var d := InvoiceFromPO(po, items, invoiceNumber, stamp);
            var company := Section(d.data.sections, "companyDetails");
            var vendor := Section(po.sections, "vendor");
            && Text(company, "name") == Text(vendor, "name")
            && Text(company, "address") == Text(vendor, "address")
            && Text(company, "email") == Text(vendor, "email")
            && Text(company, "phone") == ""
    ensures var d := InvoiceFromPO(po, items, invoiceNumber, stamp);
            forall key :: Text(Section(d.data.sections, "remittanceInfo"), key) == if key == "paymentTerms" then "Net 30" else ""
  {
  }

  /** The number of partial invoice i: the PO number is used whole, with no "PO-" removed. */
  function PartialNumber(poNumber: string, i: nat): (n: string)
    ensures StartsWith(n, "INV-" + poNumber + "-")
  {
    var n := "INV-" + poNumber + "-" + Pad2(i + 1);
    assert n[..|"INV-" + poNumber + "-"|] == "INV-" + poNumber + "-";
    n
  }

  /** `{ ...item, quantity: Math.ceil(item.quantity / k) }`. */
  function SplitQuantity(item: POLine, k: nat): POLine
    requires k >= 1
  {
    item.(quantity := Share(item.quantity, k) as real)
  }

  /** Every item with its quantity split k ways. */
  function Requantify(items: seq<POLine>, k: nat): (r: seq<POLine>)
    requires k >= 1
    ensures |r| == |items| && forall j :: 0 <= j < |items| ==> r[j] == SplitQuantity(items[j], k)
  {
    seq(|items|, j requires 0 <= j < |items| => SplitQuantity(items[j], k))
  }

  /** The items of delivery i of k. */
  function PartialItems(lines: seq<POLine>, k: nat, i: nat): seq<POLine>
    requires 1 <= k <= 3 && i < k
  {
    Requantify(Slice(lines, k, i), k)
  }

  /**
   * `generatePartialInvoices(poData, lineItems)`: k = min(3, max(1,
   * ceil(n / 2))) invoices, invoice i holding delivery i's items and
   * numbered with the two-digit index i + 1.
   */
  method GeneratePartialInvoices(po: PurchaseOrder, lines: seq<POLine>, stamp: Stamp) returns (invoices: seq<InvoiceDocument>)
    ensures |invoices| == DeliveryCount(|lines|)
    ensures forall i :: 0 <= i < |invoices| ==>
              invoices[i] == InvoiceFromPO(po, PartialItems(lines, |invoices|, i), PartialNumber(Text(po.fields, "poNumber"), i), stamp)
  {
    var k := DeliveryCount(|lines|);
    var poNumber := Text(po.fields, "poNumber");
    invoices := [];
    var i := 0;
    while i < k
      invariant 0 <= i <= k && |invoices| == i
      invariant forall m :: 0 <= m < i ==> invoices[m] == InvoiceFromPO(po, PartialItems(lines, k, m), PartialNumber(poNumber, m), stamp)
    {
      var partialItems := Requantify(Slice(lines, k, i), k);
      var invoiceNumber := "INV-" + poNumber + "-" + Pad2(i + 1);
      invoices := invoices + [InvoiceFromPO(po, partialItems, invoiceNumber, stamp)];
      i := i + 1;
    }
  }

  lemma RequantifyAppend(a: seq<POLine>, b: seq<POLine>, k: nat)
    requires k >= 1
    ensures Requantify(a + b, k) == Requantify(a, k) + Requantify(b, k)
  {
  }

  lemma {:induction false} PartialItemsPrefix(lines: seq<POLine>, k: nat, j: nat)
    requires 1 <= k <= 3 && j <= k
    ensures Flatten(seq(j, i requires 0 <= i < j => PartialItems(lines, k, i))) == Requantify(Flatten(Slices(lines, k)[..j]), k)
  {
    var parts := seq(j, i requires 0 <= i < j => PartialItems(lines, k, i));
    if j == 0 {
      assert Slices(lines, k)[..0] == [];
    } else {
      PartialItemsPrefix(lines, k, j - 1);
      assert parts[..j - 1] == seq(j - 1, i requires 0 <= i < j - 1 => PartialItems(lines, k, i));
      var slices := Slices(lines, k)[..j];
      assert slices[..j - 1] == Slices(lines, k)[..j - 1];
      RequantifyAppend(Flatten(slices[..j - 1]), slices[j - 1], k);
    }
  }

  /**
   * The deliveries partition the order: their items, laid end to end, are
   * the purchase order's lines in order, each with its quantity split k
   * ways, so every line is in exactly one partial invoice.
   */
  lemma PartialInvoicesPartition(lines: seq<POLine>, k: nat)
    requires 1 <= k <= 3
    ensures Flatten(seq(k, i requires 0 <= i < k => PartialItems(lines, k, i))) == Requantify(lines, k)
  {
    PartialItemsPrefix(lines, k, k);
    assert Slices(lines, k)[..k] == Slices(lines, k);
    SlicesPartition(lines, k);
  }

  /**
   * There is always at least one invoice and never more than three; an
   * order without lines gets one invoice with no items, and an order with
   * lines gets no empty invoice.
   */
  lemma PartialInvoicesShape(lines: seq<POLine>, i: nat)
    requires i < DeliveryCount(|lines|)
    ensures 1 <= DeliveryCount(|lines|) <= 3
    ensures |lines| == 0 ==> DeliveryCount(|lines|) == 1 && PartialItems(lines, 1, 0) == []
    ensures |lines| > 0 ==> |PartialItems(lines, DeliveryCount(|lines|), i)| >= 1
  {
    if |lines| > 0 {
      GroupCountAtMostItems(|lines|);
      SlicesNonEmpty(lines, DeliveryCount(|lines|), i);
    }
  }

  /** A split line keeps every field but its quantity, which becomes ceil(q / k). */
  lemma SplitQuantityKeepsFields(item: POLine, k: nat)
    requires k >= 1
    ensures var s := SplitQuantity(item, k);
            && s.id == item.id && s.description == item.description
            && s.unitPrice == item.unitPrice && s.totalPrice == item.totalPrice
            && k as real * s.quantity >= item.quantity
            && (item.quantity > 0.0 ==> s.quantity >= 1.0)
  {
  }

  /** Different deliveries get different numbers. */
  lemma PartialNumbersDistinct(poNumber: string, i: nat, j: nat)
    requires i < j < 99
    ensures PartialNumber(poNumber, i) != PartialNumber(poNumber, j)
  {
    var head := "INV-" + poNumber + "-";
    Pad2Injective(i + 1, j + 1);
    assert PartialNumber(poNumber, i) == head + Pad2(i + 1);
    assert PartialNumber(poNumber, j) == head + Pad2(j + 1);
    assert (head + Pad2(i + 1))[|head|..] == Pad2(i + 1);
    assert (head + Pad2(j + 1))[|head|..] == Pad2(j + 1);
  }

  // ---------------------------------------------------------------------
  // The bundle

  /** What a bundle entry holds: the rendered purchase order, or an invoice written out as JSON. */
  datatype Payload = Pdf(blob: Blob) | Json(doc: InvoiceDocument)

  datatype ZipEntry = ZipEntry(name: string, payload: Payload)

  /** The entry `zip.file` adds for an invoice: named after its number, holding the invoice as JSON. */
  function InvoiceEntry(doc: InvoiceDocument): ZipEntry
  {
    ZipEntry("Invoice-" + Text(doc.data.fields, "invoiceNumber") + ".json", Json(doc))
  }

  /** The bundle's `forEach` over the invoices: one entry appended per invoice, in order. */
  method AddInvoiceEntries(entries: seq<ZipEntry>, invoices: seq<InvoiceDocument>) returns (r: seq<ZipEntry>)
    ensures |r| == |entries| + |invoices| && r[..|entries|] == entries
    ensures forall m :: |entries| <= m < |r| ==> r[m] == InvoiceEntry(invoices[m - |entries|])
  {
    r := entries;
    var i := 0;
    while i < |invoices|
      invariant 0 <= i <= |invoices| && |r| == |entries| + i && r[..|entries|] == entries
      invariant forall m :: |entries| <= m < |r| ==> r[m] == InvoiceEntry(invoices[m - |entries|])
    {
      r := r + [InvoiceEntry(invoices[i])];
      i := i + 1;
    }
  }

  lemma InvoiceEntryName(po: PurchaseOrder, items: seq<POLine>, number: string, stamp: Stamp)
    ensures InvoiceEntry(InvoiceFromPO(po, items, number, stamp)).name == "Invoice-" + number + ".json"
  {
  }

  /**
   * `generatePOBundle(poData, lineItems)`, given the result of rendering the
   * purchase order (None when rendering throws, which aborts the bundle):
   * the purchase order first, then, unless the order is a draft, one JSON
   * entry per partial invoice in delivery order.
   */
  method GeneratePOBundle(po: PurchaseOrder, lines: seq<POLine>, poPdf: Option<Blob>, stamp: Stamp)
    returns (r: Option<seq<ZipEntry>>)
    ensures r.None? <==> poPdf.None?
    ensures r.Some? ==>
              && |r.value| >= 1
              && r.value[0] == ZipEntry("PO-" + Text(po.fields, "poNumber") + ".pdf", Pdf(poPdf.value))
    ensures r.Some? ==>
              |r.value| == 1 + if Text(po.fields, "status") == "draft" then 0 else DeliveryCount(|lines|)
    ensures r.Some? ==> forall i :: 1 <= i < |r.value| ==>
              var number := PartialNumber(Text(po.fields, "poNumber"), i - 1);
              && r.value[i].name == "Invoice-" + number + ".json"
              && r.value[i].payload == Json(InvoiceFromPO(po, PartialItems(lines, |r.value| - 1, i - 1), number, stamp))
  {
    if poPdf.None? {
      return None;
    }
    var poNumber := Text(po.fields, "poNumber");
    var entries := [ZipEntry("PO-" + poNumber + ".pdf", Pdf(poPdf.value))];
    if Text(po.fields, "status") != "draft" {
      var invoices := GeneratePartialInvoices(po, lines, stamp);
      entries := AddInvoiceEntries(entries, invoices);
      forall m | 1 <= m < |entries|
        ensures entries[m].name == "Invoice-" + PartialNumber(poNumber, m - 1) + ".json"
        ensures entries[m].payload ==
                Json(InvoiceFromPO(po, PartialItems(lines, |entries| - 1, m - 1), PartialNumber(poNumber, m - 1), stamp))
      {
        var items, number := PartialItems(lines, |invoices|, m - 1), PartialNumber(poNumber, m - 1);
        assert invoices[m - 1] == InvoiceFromPO(po, items, number, stamp);
        assert entries[m] == InvoiceEntry(InvoiceFromPO(po, items, number, stamp));
        InvoiceEntryName(po, items, number, stamp);
      }
    }
    return Some(entries);
  }

  /** The bundle never holds two entries of the same name, so no entry overwrites another. */
  lemma BundleNamesDistinct(poNumber: string, i: nat, j: nat)
    requires i < j < 99
    ensures "Invoice-" + PartialNumber(poNumber, i) + ".json" != "Invoice-" + PartialNumber(poNumber, j) + ".json"
    ensures "PO-" + poNumber + ".pdf" != "Invoice-" + PartialNumber(poNumber, i) + ".json"
  {
    PartialNumbersDistinct(poNumber, i, j);
    var a, b := PartialNumber(poNumber, i), PartialNumber(poNumber, j);
    if |a| == |b| {
      assert ("Invoice-" + a + ".json")[8..8 + |a|] == a;
      assert ("Invoice-" + b + ".json")[8..8 + |b|] == b;
    }
    assert ("PO-" + poNumber + ".pdf")[0] == 'P';
    assert ("Invoice-" + a + ".json")[0] == 'I';
  }
}
