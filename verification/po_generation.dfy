/**
 * src/domains/purchaseOrder/components/POGeneration.jsx: the purchase-order
 * screen's state, `poData`, and the operations on its line items. Each
 * operation hands a whole new purchase order to the setter; only the line
 * items differ from the old one.
 */
module POGeneration {
  import opened JsCore
  import opened Calendar
  import opened Documents

  /** `updateLineItem(id, field, value)` for the fields the line editor edits, with the value stored. */
  datatype POLineEdit = Description(text: string) | Quantity(quantity: real) | UnitPrice(unitPrice: real)

  /** The line `addLineItem` appends, under a fresh id. */
  function BlankPOLine(id: int): POLine
  {
    POLine(id, "", 1.0, 0.0, 0.0)
  }

  /** The purchase order a new screen shows: a blank draft for 2-way matching, dated today. */
  function InitialPurchaseOrder(today: Date): (po: PurchaseOrder)
    requires Valid(today)
    ensures Text(po.fields, "status") == "draft" && Text(po.fields, "matchType") == "2-way"
    ensures Text(po.fields, "poNumber") == "" && Text(po.fields, "date") == FormatIso(today)
    ensures forall key :: Text(Section(po.sections, "vendor"), key) == ""
    ensures po.lineItems == [POLine(1, "", 1.0, 0.0, 0.0)]
  {
    PurchaseOrder(
      map["poNumber" := "", "date" := FormatIso(today), "matchType" := "2-way", "status" := "draft"],
      map["vendor" := map["name" := "", "address" := "", "email" := ""]],
      [POLine(1, "", 1.0, 0.0, 0.0)])
  }

  /** `lineItems.filter(item => item.id !== id)`. */
  function RemovePOLine(items: seq<POLine>, id: int): (r: seq<POLine>)
    ensures |r| <= |items|
    ensures forall x :: x in r <==> x in items && x.id != id
  {
    if |items| == 0 then []
    else
      var front := RemovePOLine(items[..|items| - 1], id);
      var last := items[|items| - 1];
      assert items == items[..|items| - 1] + [last];
      if last.id != id then front + [last] else front
  }

  /** Removing works piece by piece, so the remaining lines keep their order. */
  lemma {:induction false} RemovePOLineAppend(a: seq<POLine>, b: seq<POLine>, id: int)
    ensures RemovePOLine(a + b, id) == RemovePOLine(a, id) + RemovePOLine(b, id)
    decreases |b|
  {
    if |b| == 0 {
      assert a + b == a;
    } else {
      assert (a + b)[..|a + b| - 1] == a + b[..|b| - 1];
      RemovePOLineAppend(a, b[..|b| - 1], id);
    }
  }

  /** Removing an id no line has leaves the lines as they were. */
  lemma {:induction false} RemoveAbsentPOLine(items: seq<POLine>, id: int)
    requires forall i :: 0 <= i < |items| ==> items[i].id != id
    ensures RemovePOLine(items, id) == items
  {
    if |items| > 0 {
      RemoveAbsentPOLine(items[..|items| - 1], id);
      assert items == items[..|items| - 1] + [items[|items| - 1]];
    }
  }

  /**
   * `{ ...item, [field]: value }`, with totalPrice recomputed as
   * quantity * unitPrice only for a quantity or unit-price edit; the other
   * fields keep their values.
   */
  function ApplyPOEdit(item: POLine, edit: POLineEdit): (r: POLine)
    ensures r.id == item.id
    ensures r.description == if edit.Description? then edit.text else item.description
    ensures r.quantity == if edit.Quantity? then edit.quantity else item.quantity
    ensures r.unitPrice == if edit.UnitPrice? then edit.unitPrice else item.unitPrice
    ensures r.totalPrice == if edit.Description? then item.totalPrice else r.quantity * r.unitPrice
  {
    match edit
    case Description(t) => item.(description := t)
    case Quantity(q) => item.(quantity := q, totalPrice := q * item.unitPrice)
    case UnitPrice(p) => item.(unitPrice := p, totalPrice := item.quantity * p)
  }

  /** The lines with the id are edited, the others returned unchanged, in place. */
  function UpdatePOLine(items: seq<POLine>, id: int, edit: POLineEdit): (r: seq<POLine>)
    ensures |r| == |items|
    ensures forall i :: 0 <= i < |items| ==> r[i] == if items[i].id == id then ApplyPOEdit(items[i], edit) else items[i]
  {
    seq(|items|, i requires 0 <= i < |items| => if items[i].id == id then ApplyPOEdit(items[i], edit) else items[i])
  }

  /** The stored total is the line's quantity times its unit price. */
  predicate TotalConsistent(item: POLine)
  {
    item.totalPrice == item.quantity * item.unitPrice
  }

  predicate TotalsConsistent(items: seq<POLine>)
  {
    forall i :: 0 <= i < |items| ==> TotalConsistent(items[i])
  }

  /** Every line operation keeps each stored total equal to quantity * unitPrice. */
  lemma LinesKeepTotals(items: seq<POLine>, id: int, edit: POLineEdit, freshId: int)
    requires TotalsConsistent(items)
    ensures TotalsConsistent(items + [BlankPOLine(freshId)])
    ensures TotalsConsistent(RemovePOLine(items, id))
    ensures TotalsConsistent(UpdatePOLine(items, id, edit))
  {
    var added := items + [BlankPOLine(freshId)];
    assert forall i :: 0 <= i < |items| ==> added[i] == items[i];
    RemoveKeepsTotals(items, id);
    var u := UpdatePOLine(items, id, edit);
    forall i | 0 <= i < |u|
      ensures TotalConsistent(u[i])
    {
      if items[i].id == id {
        assert u[i] == ApplyPOEdit(items[i], edit);
      }
    }
  }

  lemma {:induction false} RemoveKeepsTotals(items: seq<POLine>, id: int)
    requires TotalsConsistent(items)
    ensures TotalsConsistent(RemovePOLine(items, id))
  {
    if |items| > 0 {
      var front, last := items[..|items| - 1], items[|items| - 1];
      assert TotalsConsistent(front) by {
        assert forall i :: 0 <= i < |front| ==> front[i] == items[i];
      }
      RemoveKeepsTotals(front, id);
      var rest := RemovePOLine(front, id);
      if last.id != id {
        assert RemovePOLine(items, id) == rest + [last];
        assert forall i :: 0 <= i < |rest| ==> (rest + [last])[i] == rest[i];
      } else {
        assert RemovePOLine(items, id) == rest;
      }
    }
  }

  lemma {:induction false} OrderValueAppend(a: seq<POLine>, b: seq<POLine>)
    ensures OrderValue(a + b) == OrderValue(a) + OrderValue(b)
    decreases |b|
  {
    if |b| == 0 {
      assert a + b == a;
    } else {
      assert (a + b)[..|a + b| - 1] == a + b[..|b| - 1];
      OrderValueAppend(a, b[..|b| - 1]);
    }
  }

  /** Adding a blank line leaves the order's value as it was. */
  lemma AddKeepsOrderValue(items: seq<POLine>, freshId: int)
    ensures OrderValue(items + [BlankPOLine(freshId)]) == OrderValue(items)
  {
    assert (items + [BlankPOLine(freshId)])[..|items|] == items;
  }

  /** Editing a description leaves the order's value as it was. */
  lemma {:induction false} DescriptionKeepsOrderValue(items: seq<POLine>, id: int, text: string)
    ensures OrderValue(UpdatePOLine(items, id, Description(text))) == OrderValue(items)
  {
    if |items| > 0 {
      var front := items[..|items| - 1];
      DescriptionKeepsOrderValue(front, id, text);
      assert UpdatePOLine(items, id, Description(text))[..|items| - 1] == UpdatePOLine(front, id, Description(text));
    }
  }

  /** Removing an id takes off exactly what its lines were worth. */
  lemma {:induction false} RemoveSplitsOrderValue(items: seq<POLine>, id: int)
    ensures OrderValue(RemovePOLine(items, id)) + OrderValue(KeptOnly(items, id)) == OrderValue(items)
  {
    if |items| > 0 {
      var front, last := items[..|items| - 1], items[|items| - 1];
      RemoveSplitsOrderValue(front, id);
      var removed, kept := RemovePOLine(front, id), KeptOnly(front, id);
      if last.id != id {
        assert (removed + [last])[..|removed|] == removed;
      } else {
        assert (kept + [last])[..|kept|] == kept;
      }
    }
  }

  /** The lines `removeLineItem(id)` drops. */
  function KeptOnly(items: seq<POLine>, id: int): (r: seq<POLine>)
    ensures forall x :: x in r <==> x in items && x.id == id
  {
    if |items| == 0 then []
    else
      var front := KeptOnly(items[..|items| - 1], id);
      var last := items[|items| - 1];
      assert items == items[..|items| - 1] + [last];
      if last.id == id then front + [last] else front
  }

  /** The screen's `poData`. */
  class POGenerationState {
    var po: PurchaseOrder

    constructor(today: Date)
      requires Valid(today)
      ensures po == InitialPurchaseOrder(today)
    {
      po := InitialPurchaseOrder(today);
    }

    /** `addLineItem()`, with `Date.now()` given as the fresh id. */
    method AddLineItem(freshId: int)
      modifies this
      ensures po == old(po).(lineItems := old(po).lineItems + [BlankPOLine(freshId)])
    {
      po := po.(lineItems := po.lineItems + [BlankPOLine(freshId)]);
    }

    /** `removeLineItem(id)`. */
    method RemoveLineItem(id: int)
      modifies this
      ensures po == old(po).(lineItems := RemovePOLine(old(po).lineItems, id))
    {
      po := po.(lineItems := RemovePOLine(po.lineItems, id));
    }

    /** `updateLineItem(id, field, value)`. */
    method UpdateLineItem(id: int, edit: POLineEdit)
      modifies this
      ensures po == old(po).(lineItems := UpdatePOLine(old(po).lineItems, id, edit))
    {
      po := po.(lineItems := UpdatePOLine(po.lineItems, id, edit));
    }
  }
}
