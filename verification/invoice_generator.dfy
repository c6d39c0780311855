/**
 * src/domains/purchaseOrder/utils/invoiceGeneratorUtils.js: deriving invoices
 * from the lines of a purchase order that the user ticked, with the
 * quantities the user entered, either as one invoice or split over up to
 * three invoices, and the check that runs before either.
 *
 * `selectedItems` is an object from item id to a flag; Object.entries gives
 * its entries in enumeration order, modelled as a sequence of (id, flag)
 * pairs with distinct ids. `quantities` is an object from item id to a
 * number, modelled as a map.
 */
module InvoiceGenerator {
  import opened JsCore
  import opened Calendar
  import opened Documents
  import opened Split

  type Selection = seq<(int, bool)>

  type Quantities = map<int, real>

  /** Object keys are distinct. */
  predicate DistinctIds(sel: Selection)
  {
    forall i, j :: 0 <= i < j < |sel| ==> sel[i].0 != sel[j].0
  }

  /** A party printed on the generated invoice: `{ name, address, email }`. */
  datatype Party = Party(name: string, address: string, email: string)

  /** A purchase-order line spread into an invoice line: the quantity replaced, an amount added. */
  datatype BilledLine = BilledLine(item: POLine, amount: real)

  datatype GeneratedInvoice = GeneratedInvoice(
    invoiceNumber: string,
    poNumber: string,
    date: string,
    dueDate: string,
    vendor: Party,
    client: Party,
    lineItems: seq<BilledLine>,
    total: real,
    status: string,
    matchType: string)

  const ClientPlaceholder := Party("Your Company Name", "Your Company Address", "accounts@yourcompany.com")

  const NoSelectionMessage := "Please select at least one line item"

  const QuantityMessage := "All selected items must have a quantity greater than 0"

  /**
   * `generateInvoiceNumber(poNumber, index)`: "INV-", the PO number with its
   * first "PO-" removed, and "-index" when the index is non-empty.
   */
  function GenerateInvoiceNumber(poNumber: string, index: string): (r: string)
    ensures StartsWith(r, "INV-")
  {
    var r := "INV-" + ReplaceFirst(poNumber, "PO-", "") + (if index != "" then "-" + index else "");
    assert r[..4] == "INV-";
    r
  }

  /**
   * Only the first "PO-" is removed, wherever it occurs: a number without one
   * is kept whole, and one that starts with it loses exactly that prefix.
   */
  lemma GenerateInvoiceNumberCases(poNumber: string, index: string)
    ensures !Contains(poNumber, "PO-") ==>
              GenerateInvoiceNumber(poNumber, index) == "INV-" + poNumber + (if index == "" then "" else "-" + index)
    ensures StartsWith(poNumber, "PO-") ==>
              GenerateInvoiceNumber(poNumber, index) == "INV-" + poNumber[3..] + (if index == "" then "" else "-" + index)
  {
    ReplaceFirstSpec(poNumber, "PO-", "");
    if StartsWith(poNumber, "PO-") {
      assert OccursAt(poNumber, "PO-", 0);
      assert IndexOfFrom(poNumber, "PO-", 0) == Some(0);
    }
  }

  /** The ids of the ticked entries, in entry order. */
  function SelectedIds(sel: Selection): (ids: seq<int>)
    ensures |ids| <= |sel|
    ensures forall id :: id in ids <==> (id, true) in sel
  {
    if |sel| == 0 then []
    else
      var rest := SelectedIds(sel[..|sel| - 1]);
      assert sel == sel[..|sel| - 1] + [sel[|sel| - 1]];
      if sel[|sel| - 1].1 then rest + [sel[|sel| - 1].0] else rest
  }

  /** `lineItems.find(item => item.id.toString() === id)`: the first line with that id. */
  function FindLine(lines: seq<POLine>, id: int): (r: Option<POLine>)
    ensures r.Some? ==> r.value in lines && r.value.id == id
    ensures r.None? <==> forall l :: l in lines ==> l.id != id
  {
    if |lines| == 0 then None
    else if lines[0].id == id then Some(lines[0])
    else FindLine(lines[1..], id)
  }

  lemma {:induction false} FindLineFirst(lines: seq<POLine>, id: int, i: nat)
    requires i < |lines| && lines[i].id == id
    requires forall j :: 0 <= j < i ==> lines[j].id != id
    ensures FindLine(lines, id) == Some(lines[i])
  {
    if i > 0 {
      FindLineFirst(lines[1..], id, i - 1);
    }
  }

  /** `quantities[id] || 0`. */
  function QuantityOr0(q: Quantities, id: int): real
  {
    if id in q then q[id] else 0.0
  }

  /** One derived line: the PO line with the entered quantity, and the amount it bills. */
  function Bill(item: POLine, quantity: real): (b: BilledLine)
    ensures b.item.id == item.id && b.item.description == item.description
    ensures b.item.unitPrice == item.unitPrice && b.item.totalPrice == item.totalPrice
    ensures b.item.quantity == quantity && b.amount == quantity * item.unitPrice
  {
    BilledLine(item.(quantity := quantity), quantity * item.unitPrice)
  }

  /**
   * The derived line items for the given ids; None when an id has no PO
   * line (the source reads `unitPrice` of undefined and throws).
   */
  function DeriveLines(ids: seq<int>, lines: seq<POLine>, q: Quantities): (r: Option<seq<BilledLine>>)
    ensures r.Some? <==> forall i :: 0 <= i < |ids| ==> FindLine(lines, ids[i]).Some?
    ensures r.Some? ==> |r.value| == |ids|
    ensures r.Some? ==> forall i :: 0 <= i < |ids| ==>
      r.value[i] == Bill(FindLine(lines, ids[i]).value, QuantityOr0(q, ids[i]))
  {
    if |ids| == 0 then Some([])
    else
      var last := ids[|ids| - 1];
      var front := DeriveLines(ids[..|ids| - 1], lines, q);
      var found := FindLine(lines, last);
      if front.None? || found.None? then None
      else Some(front.value + [Bill(found.value, QuantityOr0(q, last))])
  }

  /** `lineItems.reduce((sum, item) => sum + item.amount, 0)`. */
  function SumAmounts(lines: seq<BilledLine>): real
  {
    if |lines| == 0 then 0.0 else SumAmounts(lines[..|lines| - 1]) + lines[|lines| - 1].amount
  }

  lemma {:induction false} SumAmountsAppend(a: seq<BilledLine>, b: seq<BilledLine>)
    ensures SumAmounts(a + b) == SumAmounts(a) + SumAmounts(b)
    decreases |b|
  {
    if |b| > 0 {
      assert (a + b)[..|a + b| - 1] == a + b[..|b| - 1];
      SumAmountsAppend(a, b[..|b| - 1]);
    } else {
      assert a + b == a;
    }
  }

  /** The vendor block copied from `poData.vendor`. */
  function VendorOf(po: PurchaseOrder): Party
  {
    var v := Section(po.sections, "vendor");
    Party(Text(v, "name"), Text(v, "address"), Text(v, "email"))
  }

  /**
   * `generateInvoiceFromPO(poData, lineItems, selectedItems, quantities,
   * includeIndex, index)` with the clock readings `stamp`; None where the source throws.
   */
  function GenerateInvoiceFromPO(po: PurchaseOrder, lines: seq<POLine>, sel: Selection, q: Quantities,
                                 includeIndex: bool, index: string, stamp: Stamp): (r: Option<GeneratedInvoice>)
    ensures r.Some? <==> DeriveLines(SelectedIds(sel), lines, q).Some?
    ensures r.Some? ==> r.value.lineItems == DeriveLines(SelectedIds(sel), lines, q).value
    ensures r.Some? ==> r.value.total == SumAmounts(r.value.lineItems)
  {
    match DeriveLines(SelectedIds(sel), lines, q)
    case None => None
    case Some(billed) =>
      var poNumber := Text(po.fields, "poNumber");
      Some(GeneratedInvoice(
        GenerateInvoiceNumber(poNumber, if includeIndex then index else ""),
        poNumber,
        stamp.date,
        stamp.dueDate,
        VendorOf(po),
        ClientPlaceholder,
        billed,
        SumAmounts(billed),
        "draft",
        Text(po.fields, "matchType")))
  }

  /**
   * The invoice copies the PO number, vendor block and match type from the
   * purchase order, bills a fixed placeholder client, is always a draft, is
   * dated with the stamp (today, and 30 calendar days later: StampOn).
   */
  lemma InvoiceHeaderFromPO(po: PurchaseOrder, lines: seq<POLine>, sel: Selection, q: Quantities,
                            includeIndex: bool, index: string, stamp: Stamp)
    requires GenerateInvoiceFromPO(po, lines, sel, q, includeIndex, index, stamp).Some?
    ensures var inv := GenerateInvoiceFromPO(po, lines, sel, q, includeIndex, index, stamp).value;
            && inv.status == "draft" && inv.client == ClientPlaceholder
            && inv.poNumber == Text(po.fields, "poNumber") && inv.matchType == Text(po.fields, "matchType")
            && inv.vendor == VendorOf(po)
            && inv.invoiceNumber == GenerateInvoiceNumber(Text(po.fields, "poNumber"), if includeIndex then index else "")
            && inv.date == stamp.date && inv.dueDate == stamp.dueDate
  {
  }

  /**
   * When every ticked id has a PO line the invoice is generated; its lines
   * are then the ticked entries, in entry order, each priced at its entered
   * quantity (0 when none was entered) times its unit price (DeriveLinesPriced).
   */
  lemma InvoiceFromPOExists(po: PurchaseOrder, lines: seq<POLine>, sel: Selection, q: Quantities,
                            includeIndex: bool, index: string, stamp: Stamp)
    requires forall i :: 0 <= i < |sel| && sel[i].1 ==> FindLine(lines, sel[i].0).Some?
    ensures GenerateInvoiceFromPO(po, lines, sel, q, includeIndex, index, stamp).Some?
  {
    var ids := SelectedIds(sel);
    forall i | 0 <= i < |ids|
      ensures FindLine(lines, ids[i]).Some?
    {
      assert ids[i] in ids;
      var j :| 0 <= j < |sel| && sel[j] == (ids[i], true);
    }
  }

  /**
   * The derived lines are the given ids in order, each billed at its entered
   * quantity (0 when none was entered) times its unit price; no ids, total 0.
   */
  lemma DeriveLinesPriced(ids: seq<int>, lines: seq<POLine>, q: Quantities)
    requires DeriveLines(ids, lines, q).Some?
    ensures var billed := DeriveLines(ids, lines, q).value;
            && |billed| == |ids|
            && (forall i :: 0 <= i < |billed| ==>
                  && billed[i].item.id == ids[i]
                  && billed[i].item.quantity == QuantityOr0(q, ids[i])
                  && billed[i].amount == QuantityOr0(q, ids[i]) * billed[i].item.unitPrice)
            && (ids == [] ==> SumAmounts(billed) == 0.0)
  {
  }

  // ---------------------------------------------------------------------
  // Several invoices

  /** The object `{ [id]: true }` built for one group. */
  function GroupSelection(ids: seq<int>): (sel: Selection)
    ensures |sel| == |ids|
    ensures SelectedIds(sel) == ids
  {
    if |ids| == 0 then []
    else
      var front := GroupSelection(ids[..|ids| - 1]);
      var sel := front + [(ids[|ids| - 1], true)];
      assert sel[..|sel| - 1] == front;
      assert ids == ids[..|ids| - 1] + [ids[|ids| - 1]];
      sel
  }

  /**
   * The object `{ [id]: Math.ceil(quantities[id] / k) }` built for one group.
   * An id without a quantity would get NaN, which later reads as 0 exactly
   * like an absent key, so it is left out of the map.
   */
  function GroupQuantities(ids: seq<int>, q: Quantities, k: nat): (g: Quantities)
    requires k >= 1
    ensures forall id :: id in g <==> id in ids && id in q
    ensures forall id :: id in g ==> g[id] == Share(q[id], k) as real
  {
    map id | id in ids && id in q :: Share(q[id], k) as real
  }

  /** The invoice for group i (0-based) of k; its index is String(i + 1).padStart(2, "0"). */
  function GroupInvoice(po: PurchaseOrder, group: seq<int>, q: Quantities, k: nat, i: nat, stamp: Stamp)
    : Option<GeneratedInvoice>
    requires k >= 1
  {
    GenerateInvoiceFromPO(po, po.lineItems, GroupSelection(group), GroupQuantities(group, q, k), true, Pad2(i + 1), stamp)
  }

  /** The forEach that fills `invoiceSelectedItems` and `invoiceQuantities` for one group. */
  method GroupObjects(group: seq<int>, q: Quantities, k: nat) returns (gsel: Selection, gq: Quantities)
    requires k >= 1
    ensures gsel == GroupSelection(group)
    ensures gq == GroupQuantities(group, q, k)
  {
    gsel := [];
    gq := map[];
    var j := 0;
    while j < |group|
      invariant 0 <= j <= |group|
      invariant gsel == GroupSelection(group[..j])
      invariant gq == GroupQuantities(group[..j], q, k)
    {
      var id := group[j];
      assert group[..j + 1] == group[..j] + [id];
      GroupObjectsStep(group[..j], id, q, k);
      gsel := gsel + [(id, true)];
      if id in q {
        gq := gq[id := Share(q[id], k) as real];
      }
      j := j + 1;
    }
    assert group[..j] == group;
  }

  lemma GroupObjectsStep(front: seq<int>, id: int, q: Quantities, k: nat)
    requires k >= 1
    ensures GroupSelection(front + [id]) == GroupSelection(front) + [(id, true)]
    ensures GroupQuantities(front + [id], q, k)
         == if id in q then GroupQuantities(front, q, k)[id := Share(q[id], k) as real] else GroupQuantities(front, q, k)
  {
    assert (front + [id])[..|front|] == front;
  }

  /** The ids an invoice bills, in line order. */
  function LineIds(lines: seq<BilledLine>): (ids: seq<int>)
    ensures |ids| == |lines| && forall j :: 0 <= j < |lines| ==> ids[j] == lines[j].item.id
  {
    seq(|lines|, j requires 0 <= j < |lines| => lines[j].item.id)
  }

  /** The billed ids of each invoice, in invoice order. */
  function InvoiceIds(invs: seq<GeneratedInvoice>): (r: seq<seq<int>>)
    ensures |r| == |invs| && forall i :: 0 <= i < |invs| ==> r[i] == LineIds(invs[i].lineItems)
  {
    seq(|invs|, i requires 0 <= i < |invs| => LineIds(invs[i].lineItems))
  }

  /** The quantity a group's invoice bills for an id: ceil(q / k), or 0 when no quantity was entered. */
  function GroupShare(q: Quantities, id: int, k: nat): (r: real)
    requires k >= 1
    ensures id in q ==> k as real * r >= q[id]
    ensures id !in q ==> r == 0.0
  {
    if id in q then Share(q[id], k) as real else 0.0
  }

  /**
   * A group's invoice exists exactly when every id of the group has a PO
   * line; it then bills the group's ids in order, each at its share of the
   * entered quantity, and carries the group's two-digit index in its number.
   */
  lemma GroupInvoiceFacts(po: PurchaseOrder, group: seq<int>, q: Quantities, k: nat, i: nat, stamp: Stamp)
    requires k >= 1
    ensures var r := GroupInvoice(po, group, q, k, i, stamp);
            && (r.Some? <==> forall j :: 0 <= j < |group| ==> FindLine(po.lineItems, group[j]).Some?)
            && (r.Some? ==>
                  && LineIds(r.value.lineItems) == group
                  && (forall j :: 0 <= j < |group| ==> r.value.lineItems[j].item.quantity == GroupShare(q, group[j], k))
                  && r.value.invoiceNumber == GenerateInvoiceNumber(Text(po.fields, "poNumber"), Pad2(i + 1)))
  {
    var gq := GroupQuantities(group, q, k);
    var r := GroupInvoice(po, group, q, k, i, stamp);
    if r.Some? {
      DeriveLinesPriced(group, po.lineItems, gq);
      InvoiceHeaderFromPO(po, po.lineItems, GroupSelection(group), gq, true, Pad2(i + 1), stamp);
    }
  }

  /**
   * The invoices of the first |invoices| groups of k bill, laid end to end,
   * the ticked ids up to the next group's start, each of which has a PO line.
   */
  predicate CoversPrefix(po: PurchaseOrder, ids: seq<int>, k: nat, invoices: seq<GeneratedInvoice>)
    requires 1 <= k <= 3 && |invoices| <= k
  {
    var b := Bound(|ids|, k, |invoices|);
    && b <= |ids|
    && Flatten(InvoiceIds(invoices)) == ids[..b]
    && (forall j :: 0 <= j < b ==> FindLine(po.lineItems, ids[j]).Some?)
  }

  /** No invoice is empty and each is numbered with its two-digit index. */
  predicate NumberedInOrder(po: PurchaseOrder, invoices: seq<GeneratedInvoice>)
  {
    forall m :: 0 <= m < |invoices| ==>
      && |invoices[m].lineItems| >= 1
      && invoices[m].invoiceNumber == GenerateInvoiceNumber(Text(po.fields, "poNumber"), Pad2(m + 1))
  }

  /** Every billed quantity is the group's share of the entered quantity. */
  predicate SharesBilled(q: Quantities, k: nat, invoices: seq<GeneratedInvoice>)
    requires k >= 1
  {
    forall m, j :: 0 <= m < |invoices| && 0 <= j < |invoices[m].lineItems| ==>
      invoices[m].lineItems[j].item.quantity == GroupShare(q, invoices[m].lineItems[j].item.id, k)
  }

  /** What holds after the invoices of the first |invoices| groups of k are generated. */
  predicate SplitSoFar(po: PurchaseOrder, ids: seq<int>, q: Quantities, k: nat, invoices: seq<GeneratedInvoice>)
    requires 1 <= k <= 3 && |invoices| <= k
  {
    CoversPrefix(po, ids, k, invoices) && NumberedInOrder(po, invoices) && SharesBilled(q, k, invoices)
  }

  /** Generating the next group's invoice extends what holds by one group. */
  lemma SplitStep(po: PurchaseOrder, ids: seq<int>, q: Quantities, k: nat, invoices: seq<GeneratedInvoice>,
                  inv: GeneratedInvoice, stamp: Stamp)
    requires 1 <= k <= 3 && |invoices| < k && k <= |ids|
    requires SplitSoFar(po, ids, q, k, invoices)
    requires GroupInvoice(po, Slice(ids, k, |invoices|), q, k, |invoices|, stamp) == Some(inv)
    ensures SplitSoFar(po, ids, q, k, invoices + [inv])
  {
    var i := |invoices|;
    GroupInvoiceFacts(po, Slice(ids, k, i), q, k, i, stamp);
    SplitExtend(po, ids, q, k, invoices, inv);
  }

  lemma SplitExtend(po: PurchaseOrder, ids: seq<int>, q: Quantities, k: nat, invoices: seq<GeneratedInvoice>,
                    inv: GeneratedInvoice)
    requires 1 <= k <= 3 && |invoices| < k && k <= |ids|
    requires SplitSoFar(po, ids, q, k, invoices)
    requires var group := Slice(ids, k, |invoices|);
             && (forall j :: 0 <= j < |group| ==> FindLine(po.lineItems, group[j]).Some?)
             && LineIds(inv.lineItems) == group
             && (forall j :: 0 <= j < |group| ==> inv.lineItems[j].item.quantity == GroupShare(q, group[j], k))
             && inv.invoiceNumber == GenerateInvoiceNumber(Text(po.fields, "poNumber"), Pad2(|invoices| + 1))
    ensures SplitSoFar(po, ids, q, k, invoices + [inv])
  {
    CoversExtend(po, ids, k, invoices, inv);
    NumberedExtend(po, invoices, inv);
    SharesExtend(q, k, invoices, inv);
  }

  lemma CoversExtend(po: PurchaseOrder, ids: seq<int>, k: nat, invoices: seq<GeneratedInvoice>, inv: GeneratedInvoice)
    requires 1 <= k <= 3 && |invoices| < k && k <= |ids|
    requires CoversPrefix(po, ids, k, invoices)
    requires var group := Slice(ids, k, |invoices|);
             && (forall j :: 0 <= j < |group| ==> FindLine(po.lineItems, group[j]).Some?)
             && LineIds(inv.lineItems) == group
    ensures CoversPrefix(po, ids, k, invoices + [inv])
    ensures |inv.lineItems| >= 1
  {
    var i := |invoices|;
    var group := Slice(ids, k, i);
    BoundStep(|ids|, k, i);
    BoundRange(|ids|, k, i + 1);
    SlicesNonEmpty(ids, k, i);
    var lo, hi := Bound(|ids|, k, i), Bound(|ids|, k, i + 1);
    assert group == ids[lo..hi];
    var next := invoices + [inv];
    assert InvoiceIds(next) == InvoiceIds(invoices) + [group];
    assert InvoiceIds(next)[..i] == InvoiceIds(invoices);
    assert ids[..hi] == ids[..lo] + group;
    forall j | lo <= j < hi
      ensures FindLine(po.lineItems, ids[j]).Some?
    {
      assert ids[j] == group[j - lo];
    }
  }

  lemma NumberedExtend(po: PurchaseOrder, invoices: seq<GeneratedInvoice>, inv: GeneratedInvoice)
    requires NumberedInOrder(po, invoices)
    requires |inv.lineItems| >= 1
    requires inv.invoiceNumber == GenerateInvoiceNumber(Text(po.fields, "poNumber"), Pad2(|invoices| + 1))
    ensures NumberedInOrder(po, invoices + [inv])
  {
    var next := invoices + [inv];
    forall m | 0 <= m < |next|
      ensures |next[m].lineItems| >= 1
      ensures next[m].invoiceNumber == GenerateInvoiceNumber(Text(po.fields, "poNumber"), Pad2(m + 1))
    {
      if m < |invoices| {
        assert next[m] == invoices[m];
      }
    }
  }

  lemma SharesExtend(q: Quantities, k: nat, invoices: seq<GeneratedInvoice>, inv: GeneratedInvoice)
    requires k >= 1
    requires SharesBilled(q, k, invoices)
    requires forall j :: 0 <= j < |inv.lineItems| ==> inv.lineItems[j].item.quantity == GroupShare(q, inv.lineItems[j].item.id, k)
    ensures SharesBilled(q, k, invoices + [inv])
  {
    var next := invoices + [inv];
    forall m, j | 0 <= m < |next| && 0 <= j < |next[m].lineItems|
      ensures next[m].lineItems[j].item.quantity == GroupShare(q, next[m].lineItems[j].item.id, k)
    {
      if m < |invoices| {
        assert next[m] == invoices[m];
      }
    }
  }

  /** When the next group's invoice cannot be generated, some ticked id has no PO line. */
  lemma SplitFails(po: PurchaseOrder, ids: seq<int>, q: Quantities, k: nat, i: nat, stamp: Stamp)
    requires 1 <= k <= 3 && i < k
    requires GroupInvoice(po, Slice(ids, k, i), q, k, i, stamp).None?
    ensures exists j :: 0 <= j < |ids| && FindLine(po.lineItems, ids[j]).None?
  {
    GroupInvoiceFacts(po, Slice(ids, k, i), q, k, i, stamp);
    MissingInGroup(po, ids, k, i);
  }

  lemma MissingInGroup(po: PurchaseOrder, ids: seq<int>, k: nat, i: nat)
    requires 1 <= k <= 3 && i < k
    requires exists j :: 0 <= j < |Slice(ids, k, i)| && FindLine(po.lineItems, Slice(ids, k, i)[j]).None?
    ensures exists j :: 0 <= j < |ids| && FindLine(po.lineItems, ids[j]).None?
  {
    var group := Slice(ids, k, i);
    BoundStep(|ids|, k, i);
    BoundRange(|ids|, k, i + 1);
    var lo := Bound(|ids|, k, i);
    var j :| 0 <= j < |group| && FindLine(po.lineItems, group[j]).None?;
    assert ids[lo + j] == group[j];
  }

  /** After the last group the invoices cover every ticked id. */
  lemma SplitDone(po: PurchaseOrder, ids: seq<int>, q: Quantities, k: nat, invoices: seq<GeneratedInvoice>)
    requires 1 <= k <= 3 && |invoices| == k
    requires SplitSoFar(po, ids, q, k, invoices)
    ensures Flatten(InvoiceIds(invoices)) == ids
    ensures forall j :: 0 <= j < |ids| ==> FindLine(po.lineItems, ids[j]).Some?
  {
    assert Bound(|ids|, k, k) == |ids| by {
      FlattenPrefix(ids, k, k);
      SlicesPartition(ids, k);
      assert Slices(ids, k)[..k] == Slices(ids, k);
    }
    assert ids[..|ids|] == ids;
  }

  /**
   * `invoices` is the split of the ticked ids `ids`: one invoice per group
   * (GroupCount of them), together billing the ids in entry order, none
   * empty, invoice i numbered with the two-digit index i + 1, and every
   * billed quantity the group's share ceil(q / k) of the entered quantity.
   */
  predicate IsSplitOf(po: PurchaseOrder, ids: seq<int>, q: Quantities, invoices: seq<GeneratedInvoice>)
  {
    var k := GroupCount(|ids|);
    && |invoices| == k
    && Flatten(InvoiceIds(invoices)) == ids
    && (forall i :: 0 <= i < k ==> |invoices[i].lineItems| >= 1)
    && (forall i :: 0 <= i < k ==>
          invoices[i].invoiceNumber == GenerateInvoiceNumber(Text(po.fields, "poNumber"), Pad2(i + 1)))
    && (forall i, j :: 0 <= i < k && 0 <= j < |invoices[i].lineItems| ==>
          invoices[i].lineItems[j].item.quantity == GroupShare(q, invoices[i].lineItems[j].item.id, k))
  }

  /**
   * `generateMultipleInvoices(poData, selectedItems, quantities)`: the n
   * ticked ids are split into k = min(3, ceil(n / 2)) contiguous groups, one
   * invoice per group, priced from the PO's own line items; None where the
   * source throws (a ticked id without a PO line). The invoices partition
   * the ticked ids in entry order, none is empty, invoice i is numbered
   * with the two-digit index i + 1, and every billed quantity is the
   * group's share ceil(q / k) of the entered quantity q.
   */
  method GenerateMultipleInvoices(po: PurchaseOrder, sel: Selection, q: Quantities, stamp: Stamp)
    returns (r: Option<seq<GeneratedInvoice>>)
    ensures var ids := SelectedIds(sel);
            r.Some? <==> forall j :: 0 <= j < |ids| ==> FindLine(po.lineItems, ids[j]).Some?
    ensures r.Some? ==> IsSplitOf(po, SelectedIds(sel), q, r.value)
  {
    var ids := SelectedIds(sel);
    var k := GroupCount(|ids|);
    if k == 0 {
      // No ticked ids: the loop below would not run.
      return Some([]);
    }
    GroupCountAtMostItems(|ids|);
    var invoices: seq<GeneratedInvoice> := [];
    var i := 0;
    while i < k
      invariant 0 <= i <= k && |invoices| == i
      invariant SplitSoFar(po, ids, q, k, invoices)
    {
      var group := Slice(ids, k, i);
      var gsel, gq := GroupObjects(group, q, k);
      var invoice := GenerateInvoiceFromPO(po, po.lineItems, gsel, gq, true, Pad2(i + 1), stamp);
      assert invoice == GroupInvoice(po, group, q, k, i, stamp);
      if invoice.None? {
        SplitFails(po, ids, q, k, i, stamp);
        ghost var missing :| 0 <= missing < |ids| && FindLine(po.lineItems, ids[missing]).None?;
        assert !(forall j :: 0 <= j < |ids| ==> FindLine(po.lineItems, ids[j]).Some?);
        return None;
      }
      SplitStep(po, ids, q, k, invoices, invoice.value, stamp);
      invoices := invoices + [invoice.value];
      i := i + 1;
    }
    SplitDone(po, ids, q, k, invoices);
    return Some(invoices);
  }

  /** Different invoices of one split carry different numbers. */
  lemma SplitNumbersDistinct(poNumber: string, i: nat, j: nat)
    requires i < j < 3
    ensures GenerateInvoiceNumber(poNumber, Pad2(i + 1)) != GenerateInvoiceNumber(poNumber, Pad2(j + 1))
  {
    IndexedNumbersDistinct(poNumber, i + 1, j + 1);
  }

  /** Different two-digit indexes give different invoice numbers. */
  lemma IndexedNumbersDistinct(poNumber: string, i: nat, j: nat)
    requires 1 <= i < j < 100
    ensures GenerateInvoiceNumber(poNumber, Pad2(i)) != GenerateInvoiceNumber(poNumber, Pad2(j))
  {
    var pi, pj := Pad2(i), Pad2(j);
    Pad2Injective(i, j);
    Pad2Digits(i);
    Pad2Digits(j);
    var head := "INV-" + ReplaceFirst(poNumber, "PO-", "") + "-";
    IndexedNumber(poNumber, pi);
    IndexedNumber(poNumber, pj);
    assert (head + pi)[|head|..] == pi;
    assert (head + pj)[|head|..] == pj;
  }

  lemma IndexedNumber(poNumber: string, index: string)
    requires index != ""
    ensures GenerateInvoiceNumber(poNumber, index) == "INV-" + ReplaceFirst(poNumber, "PO-", "") + "-" + index
  {
  }

  // ---------------------------------------------------------------------
  // Validation

  /** `Object.values(selectedItems).some(isSelected => isSelected)`. */
  predicate HasSelection(sel: Selection)
  {
    exists i :: 0 <= i < |sel| && sel[i].1
  }

  /** A ticked entry whose quantity is missing, zero or negative. */
  predicate BadQuantity(entry: (int, bool), q: Quantities)
  {
    entry.1 && !(entry.0 in q && q[entry.0] > 0.0)
  }

  /** One quantity message per offending entry, in entry order. */
  function QuantityErrors(sel: Selection, q: Quantities): (errs: seq<string>)
    ensures forall e :: e in errs ==> e == QuantityMessage
    ensures |errs| == 0 <==> forall i :: 0 <= i < |sel| ==> !BadQuantity(sel[i], q)
  {
    if |sel| == 0 then []
    else
      var front := QuantityErrors(sel[..|sel| - 1], q);
      assert forall i :: 0 <= i < |sel| - 1 ==> sel[..|sel| - 1][i] == sel[i];
      front + (if BadQuantity(sel[|sel| - 1], q) then [QuantityMessage] else [])
  }

  /** The messages `validateInvoiceGeneration` collects, in order. */
  function ValidationErrors(sel: Selection, q: Quantities): seq<string>
  {
    (if HasSelection(sel) then [] else [NoSelectionMessage]) + QuantityErrors(sel, q)
  }

  /** `validateInvoiceGeneration(selectedItems, quantities)`. */
  method ValidateInvoiceGeneration(sel: Selection, q: Quantities) returns (errors: seq<string>)
    ensures errors == ValidationErrors(sel, q)
  {
    errors := [];
    if !HasSelection(sel) {
      errors := errors + [NoSelectionMessage];
    }
    var i := 0;
    while i < |sel|
      invariant 0 <= i <= |sel|
      invariant errors == (if HasSelection(sel) then [] else [NoSelectionMessage]) + QuantityErrors(sel[..i], q)
    {
      assert sel[..i + 1][..i] == sel[..i];
      var (id, isSelected) := sel[i];
      if isSelected {
        if !(id in q) || q[id] <= 0.0 {
          errors := errors + [QuantityMessage];
        }
      }
      i := i + 1;
    }
    assert sel[..i] == sel;
  }

  /**
   * No errors exactly when something is ticked and every ticked entry has a
   * positive quantity; with nothing ticked the first message says so.
   */
  lemma ValidationErrorsIff(sel: Selection, q: Quantities)
    ensures ValidationErrors(sel, q) == [] <==>
              HasSelection(sel) && forall i :: 0 <= i < |sel| && sel[i].1 ==> sel[i].0 in q && q[sel[i].0] > 0.0
    ensures !HasSelection(sel) ==> ValidationErrors(sel, q)[0] == NoSelectionMessage
  {
    var errs := QuantityErrors(sel, q);
    if HasSelection(sel) && forall i :: 0 <= i < |sel| && sel[i].1 ==> sel[i].0 in q && q[sel[i].0] > 0.0 {
      assert forall i :: 0 <= i < |sel| ==> !BadQuantity(sel[i], q);
    }
  }

  /** One quantity message per offending entry. */
  lemma {:induction false} QuantityErrorsCount(sel: Selection, q: Quantities)
    ensures |QuantityErrors(sel, q)| == |set i | 0 <= i < |sel| && BadQuantity(sel[i], q)|
  {
    if |sel| > 0 {
      var n := |sel| - 1;
      QuantityErrorsCount(sel[..n], q);
      var front := set i | 0 <= i < n && BadQuantity(sel[..n][i], q);
      var all := set i | 0 <= i < |sel| && BadQuantity(sel[i], q);
      assert front == set i | 0 <= i < n && BadQuantity(sel[i], q);
      if BadQuantity(sel[n], q) {
        assert all == front + {n};
      } else {
        assert all == front;
      }
    }
  }
}
