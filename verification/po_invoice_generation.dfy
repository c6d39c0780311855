/**
 * src/domains/purchaseOrder/components/POInvoiceGeneration.jsx: the page
 * that turns a purchase order into invoices. It keeps which lines are
 * ticked (`selectedItems`) and the quantity to bill for each
 * (`quantities`), and on request validates them and generates one invoice
 * or a split over several.
 */
module POInvoiceGeneration {
  import opened JsCore
  import opened Calendar
  import opened Documents
  import opened Split
  import opened InvoiceGenerator

  datatype Strategy = Single | Multiple

  const FailureMessage := "Failed to generate invoices"

  /** `{ [item.id]: item.quantity }` for every line; a repeated id keeps its last line's quantity. */
  function InitialQuantities(lines: seq<POLine>): (q: Quantities)
    ensures q.Keys == set l | l in lines :: l.id
  {
    if |lines| == 0 then map[]
    else
      var front := lines[..|lines| - 1];
      var last := lines[|lines| - 1];
      assert lines == front + [last];
      InitialQuantities(front)[last.id := last.quantity]
  }

  /** With distinct ids every line starts at its ordered quantity. */
  lemma {:induction false} InitialQuantitiesOrdered(lines: seq<POLine>, i: nat)
    requires i < |lines|
    requires forall a, b :: 0 <= a < b < |lines| ==> lines[a].id != lines[b].id
    ensures InitialQuantities(lines)[lines[i].id] == lines[i].quantity
  {
    var n := |lines| - 1;
    if i < n {
      InitialQuantitiesOrdered(lines[..n], i);
    }
  }

  /** `!prev[id]` read from a selection: a missing id counts as not ticked. */
  function Flag(sel: Selection, id: int): bool
  {
    if |sel| == 0 then false
    else if sel[0].0 == id then sel[0].1
    else Flag(sel[1..], id)
  }

  /** `{ ...prev, [id]: !prev[id] }`: an existing entry is flipped in place, a new one appended as ticked. */
  function ToggleSelection(sel: Selection, id: int): (r: Selection)
    ensures |r| == |sel| || |r| == |sel| + 1
    ensures Keys(r) == Keys(sel) + {id}
    ensures Flag(r, id) == !Flag(sel, id)
    ensures forall other :: other != id ==> Flag(r, other) == Flag(sel, other)
    ensures DistinctIds(sel) ==> DistinctIds(r)
  {
    if |sel| == 0 then
      assert Keys([(id, true)]) == {id} by {
        assert [(id, true)][0].0 == id;
      }
      [(id, true)]
    else
      var tail := sel[1..];
      assert sel == [sel[0]] + tail;
      KeysCons(sel[0], tail);
      DistinctCons(sel[0], tail);
      if sel[0].0 == id then
        KeysCons((id, !sel[0].1), tail);
        DistinctCons((id, !sel[0].1), tail);
        [(id, !sel[0].1)] + tail
      else
        var rest := ToggleSelection(tail, id);
        KeysCons(sel[0], rest);
        DistinctCons(sel[0], rest);
        [sel[0]] + rest
  }

  lemma KeysCons(x: (int, bool), s: Selection)
    ensures Keys([x] + s) == {x.0} + Keys(s)
  {
    var t := [x] + s;
    forall k | k in Keys(t)
      ensures k in {x.0} + Keys(s)
    {
      var j :| 0 <= j < |t| && t[j].0 == k;
      if j > 0 {
        assert s[j - 1] == t[j];
      }
    }
    forall k | k in {x.0} + Keys(s)
      ensures k in Keys(t)
    {
      if k == x.0 {
        assert t[0].0 == k;
      } else {
        var j :| 0 <= j < |s| && s[j].0 == k;
        assert t[j + 1] == s[j];
      }
    }
  }

  lemma DistinctCons(x: (int, bool), s: Selection)
    ensures DistinctIds([x] + s) <==> x.0 !in Keys(s) && DistinctIds(s)
  {
    var t := [x] + s;
    assert forall j :: 0 <= j < |s| ==> t[j + 1] == s[j];
    if DistinctIds(t) {
      forall j | 0 <= j < |s|
        ensures s[j].0 != x.0
      {
        assert t[0].0 != t[j + 1].0;
      }
    }
    if x.0 !in Keys(s) && DistinctIds(s) {
      forall i, j | 0 <= i < j < |t|
        ensures t[i].0 != t[j].0
      {
        if i == 0 {
          assert s[j - 1].0 in Keys(s);
        }
      }
    }
  }

  /** Ticking a line twice restores every flag. */
  lemma ToggleTwice(sel: Selection, id: int, other: int)
    ensures Flag(ToggleSelection(ToggleSelection(sel, id), id), other) == Flag(sel, other)
  {
  }

  /**
   * `handleQuantityChange(id, value)`: min(max(0, parseInt(value) || 0),
   * the line's ordered quantity || 0). It stays between 0 and the ordered
   * quantity, and an id without a line stores 0.
   */
  function ClampQuantity(lines: seq<POLine>, id: int, value: string): (r: real)
    ensures FindLine(lines, id).None? ==> r == 0.0
    ensures FindLine(lines, id).Some? && FindLine(lines, id).value.quantity >= 0.0 ==>
              0.0 <= r <= FindLine(lines, id).value.quantity
    ensures (&& ParseInt(value).Some? && 0 <= ParseInt(value).value && FindLine(lines, id).Some?
             && ParseInt(value).value as real <= FindLine(lines, id).value.quantity) ==> r == ParseInt(value).value as real
  {
    var entered := match ParseInt(value) case None => 0 case Some(n) => n;
    var ordered := if FindLine(lines, id).Some? then FindLine(lines, id).value.quantity else 0.0;
    Min(Max(0.0, entered as real), ordered)
  }

  /** The header checkbox reads as ticked when there are as many keys as lines, whatever their flags. */
  predicate AllSelected(sel: Selection, lines: seq<POLine>)
  {
    |sel| == |lines|
  }

  /** `Object.keys(selection)`, as a set. */
  function Keys(sel: Selection): set<int>
  {
    set j | 0 <= j < |sel| :: sel[j].0
  }

  function LineIdSet(lines: seq<POLine>): set<int>
  {
    set l | l in lines :: l.id
  }

  /** The selection the header checkbox builds: every line's id set to the same flag, in line order. */
  function SelectAllSelection(lines: seq<POLine>, flag: bool): (r: Selection)
    ensures DistinctIds(r)
    ensures forall j :: 0 <= j < |r| ==> r[j].1 == flag
    ensures Keys(r) == LineIdSet(lines)
  {
    if |lines| == 0 then []
    else
      var front := SelectAllSelection(lines[..|lines| - 1], flag);
      var last := lines[|lines| - 1];
      assert lines == lines[..|lines| - 1] + [last];
      assert LineIdSet(lines) == LineIdSet(lines[..|lines| - 1]) + {last.id};
      if last.id in Keys(front) then front
      else
        var r := front + [(last.id, flag)];
        assert Keys(r) == Keys(front) + {last.id} by {
          assert forall j :: 0 <= j < |front| ==> r[j] == front[j];
          assert r[|front|].0 == last.id;
        }
        r
  }

  /** `calculateTotal` over the ticked lines: NaN (None) when a ticked line has no quantity entry. */
  function SelectedTotal(lines: seq<POLine>, sel: Selection, q: Quantities): (r: Option<real>)
    ensures r.None? <==> exists i :: 0 <= i < |lines| && Flag(sel, lines[i].id) && lines[i].id !in q
  {
    if |lines| == 0 then Some(0.0)
    else
      var front := SelectedTotal(lines[..|lines| - 1], sel, q);
      var last := lines[|lines| - 1];
      assert forall i :: 0 <= i < |lines| - 1 ==> lines[..|lines| - 1][i] == lines[i];
      if !Flag(sel, last.id) then front
      else if front.None? || last.id !in q then None
      else Some(front.value + Product(q[last.id], last.unitPrice))
  }

  /** A quantity times a unit price, as one line adds it to a total. */
  function Product(quantity: real, unitPrice: real): real
  {
    quantity * unitPrice
  }

  /** Once the quantities are initialised from the lines, the total is always a number; nothing ticked totals 0. */
  lemma SelectedTotalDefined(lines: seq<POLine>, sel: Selection)
    ensures SelectedTotal(lines, sel, InitialQuantities(lines)).Some?
    ensures (forall i :: 0 <= i < |lines| ==> !Flag(sel, lines[i].id)) ==> SelectedTotal(lines, sel, map[]) == Some(0.0)
  {
    var q := InitialQuantities(lines);
    forall i | 0 <= i < |lines|
      ensures lines[i].id in q
    {
      assert lines[i] in lines;
    }
    if forall i :: 0 <= i < |lines| ==> !Flag(sel, lines[i].id) {
      NothingTickedTotalsZero(lines, sel);
    }
  }

  lemma {:induction false} NothingTickedTotalsZero(lines: seq<POLine>, sel: Selection)
    requires forall i :: 0 <= i < |lines| ==> !Flag(sel, lines[i].id)
    ensures SelectedTotal(lines, sel, map[]) == Some(0.0)
  {
    if |lines| > 0 {
      NothingTickedTotalsZero(lines[..|lines| - 1], sel);
    }
  }

  // ---------------------------------------------------------------------
  // The shown total against the generated invoice

  /** Line ids are distinct. */
  predicate DistinctLineIds(lines: seq<POLine>)
  {
    forall a, b :: 0 <= a < b < |lines| ==> lines[a].id != lines[b].id
  }

  predicate NoRepeats(ids: seq<int>)
  {
    forall i, j :: 0 <= i < j < |ids| ==> ids[i] != ids[j]
  }

  /** Every id of each list occurs in the other. */
  predicate SameIds(a: seq<int>, b: seq<int>)
  {
    && (forall i :: 0 <= i < |a| ==> a[i] in b)
    && (forall i :: 0 <= i < |b| ==> b[i] in a)
  }

  /** With distinct keys, an id is ticked exactly when its entry is `true`. */
  lemma {:induction false} FlagIff(sel: Selection, id: int)
    requires DistinctIds(sel)
    ensures Flag(sel, id) <==> (id, true) in sel
  {
    if |sel| > 0 {
      assert DistinctIds(sel[1..]) by {
        forall i, j | 0 <= i < j < |sel| - 1
          ensures sel[1..][i].0 != sel[1..][j].0
        {
          assert sel[1..][i] == sel[i + 1] && sel[1..][j] == sel[j + 1];
        }
      }
      FlagIff(sel[1..], id);
      assert sel == [sel[0]] + sel[1..];
      if sel[0].0 == id {
        forall j | 0 <= j < |sel| - 1
          ensures sel[1..][j].0 != id
        {
          assert sel[1..][j] == sel[j + 1];
        }
      }
    }
  }

  /** With distinct keys, no ticked id is listed twice. */
  lemma {:induction false} SelectedIdsNoRepeats(sel: Selection)
    requires DistinctIds(sel)
    ensures NoRepeats(SelectedIds(sel))
  {
    if |sel| > 0 {
      var n := |sel| - 1;
      var front := sel[..n];
      assert DistinctIds(front);
      SelectedIdsNoRepeats(front);
      if sel[n].1 {
        var ids := SelectedIds(front);
        forall j | 0 <= j < |ids|
          ensures ids[j] != sel[n].0
        {
          assert ids[j] in ids;
          var m :| 0 <= m < |front| && front[m] == (ids[j], true);
        }
      }
    }
  }

  /** The ids of the lines `lineItems.filter(item => selectedItems[item.id])` keeps, in line order. */
  function TickedLineIds(lines: seq<POLine>, sel: Selection): (r: seq<int>)
    ensures forall id :: id in r ==> Flag(sel, id)
    ensures forall i :: 0 <= i < |lines| && Flag(sel, lines[i].id) ==> lines[i].id in r
    ensures forall j :: 0 <= j < |r| ==> exists i :: 0 <= i < |lines| && lines[i].id == r[j]
    ensures DistinctLineIds(lines) ==> NoRepeats(r)
  {
    if |lines| == 0 then []
    else
      var n := |lines| - 1;
      var front := TickedLineIds(lines[..n], sel);
      assert forall i :: 0 <= i < n ==> lines[..n][i] == lines[i];
      if Flag(sel, lines[n].id) then
        var r := front + [lines[n].id];
        assert forall j :: 0 <= j < |front| ==> r[j] == front[j];
        r
      else front
  }

  /** The unit price of the line `find` returns for an id, 0 when there is none. */
  function PriceOf(lines: seq<POLine>, id: int): real
  {
    match FindLine(lines, id)
    case Some(l) => l.unitPrice
    case None => 0.0
  }

  /** What one id adds to a total: the entered quantity (0 when none) times the line's unit price. */
  function LineCharge(lines: seq<POLine>, q: Quantities, id: int): real
  {
    Product(QuantityOr0(q, id), PriceOf(lines, id))
  }

  /** Σ over the ids, left to right, of their charges. */
  function IdsTotal(ids: seq<int>, lines: seq<POLine>, q: Quantities): real
  {
    if |ids| == 0 then 0.0
    else IdsTotal(ids[..|ids| - 1], lines, q) + LineCharge(lines, q, ids[|ids| - 1])
  }

  lemma {:induction false} IdsTotalAppend(a: seq<int>, b: seq<int>, lines: seq<POLine>, q: Quantities)
    ensures IdsTotal(a + b, lines, q) == IdsTotal(a, lines, q) + IdsTotal(b, lines, q)
    decreases |b|
  {
    if |b| > 0 {
      assert (a + b)[..|a + b| - 1] == a + b[..|b| - 1];
      IdsTotalAppend(a, b[..|b| - 1], lines, q);
    } else {
      assert a + b == a;
    }
  }

  /** Dropping position j leaves the other ids in order. */
  lemma IdsTotalRemove(b: seq<int>, j: nat, lines: seq<POLine>, q: Quantities)
    requires j < |b|
    ensures IdsTotal(b, lines, q) == IdsTotal(b[..j] + b[j + 1..], lines, q) + LineCharge(lines, q, b[j])
  {
    assert b == b[..j] + [b[j]] + b[j + 1..];
    IdsTotalAppend(b[..j] + [b[j]], b[j + 1..], lines, q);
    IdsTotalAppend(b[..j], [b[j]], lines, q);
    IdsTotalAppend(b[..j], b[j + 1..], lines, q);
    assert [b[j]][..0] == [];
  }

  /** Removing the last id of `a` from `b` keeps the two lists repeat-free and with the same ids. */
  lemma RemoveMatching(a: seq<int>, b: seq<int>, j: nat, rest: seq<int>)
    requires NoRepeats(a) && NoRepeats(b) && SameIds(a, b)
    requires |a| > 0 && j < |b| && b[j] == a[|a| - 1]
    requires rest == b[..j] + b[j + 1..]
    ensures NoRepeats(rest) && SameIds(a[..|a| - 1], rest)
  {
    var n := |a| - 1;
    assert forall m :: 0 <= m < |rest| ==> rest[m] == b[if m < j then m else m + 1];
    forall i | 0 <= i < n
      ensures a[..n][i] in rest
    {
      assert a[..n][i] == a[i] && a[i] != a[n];
      var m :| 0 <= m < |b| && b[m] == a[i];
      if m < j {
        assert rest[m] == a[i];
      } else {
        assert rest[m - 1] == a[i];
      }
    }
    forall m | 0 <= m < |rest|
      ensures rest[m] in a[..n]
    {
      var p := if m < j then m else m + 1;
      assert rest[m] == b[p] && b[p] != b[j];
      var i :| 0 <= i < |a| && a[i] == b[p];
      assert i != n;
      assert a[..n][i] == rest[m];
    }
  }

  lemma HeadListed(a: seq<int>, b: seq<int>)
    requires 0 < |b| && SameIds(a, b)
    ensures b[0] in a
  {
  }

  /** The sum does not depend on the order: two repeat-free lists of the same ids have the same total. */
  lemma {:induction false} IdsTotalReordered(a: seq<int>, b: seq<int>, lines: seq<POLine>, q: Quantities)
    requires NoRepeats(a) && NoRepeats(b) && SameIds(a, b)
    ensures IdsTotal(a, lines, q) == IdsTotal(b, lines, q)
    decreases |a|
  {
    if |a| == 0 {
      if |b| > 0 {
        HeadListed(a, b);
        assert false;
      }
    } else {
      var n := |a| - 1;
      assert a[n] in b;
      var j :| 0 <= j < |b| && b[j] == a[n];
      var rest := b[..j] + b[j + 1..];
      RemoveMatching(a, b, j, rest);
      IdsTotalReordered(a[..n], rest, lines, q);
      IdsTotalRemove(b, j, lines, q);
    }
  }

  /** Each derived line bills exactly its id's charge. */
  lemma BilledCharge(ids: seq<int>, lines: seq<POLine>, q: Quantities, i: nat)
    requires DeriveLines(ids, lines, q).Some? && i < |ids|
    ensures DeriveLines(ids, lines, q).value[i].amount == LineCharge(lines, q, ids[i])
  {
    var l := FindLine(lines, ids[i]).value;
    assert DeriveLines(ids, lines, q).value[i] == Bill(l, QuantityOr0(q, ids[i]));
    assert PriceOf(lines, ids[i]) == l.unitPrice;
  }

  /** The generated invoice's total, `reduce` over its derived lines, is IdsTotal of the ticked ids. */
  lemma {:induction false} DerivedTotal(ids: seq<int>, lines: seq<POLine>, q: Quantities)
    requires DeriveLines(ids, lines, q).Some?
    ensures SumAmounts(DeriveLines(ids, lines, q).value) == IdsTotal(ids, lines, q)
  {
    if |ids| > 0 {
      var n := |ids| - 1;
      var b := DeriveLines(ids, lines, q).value;
      var front := DeriveLines(ids[..n], lines, q);
      assert front.Some? && b == front.value + [b[n]];
      assert b[..n] == front.value;
      DerivedTotal(ids[..n], lines, q);
      BilledCharge(ids, lines, q, n);
    }
  }

  /** One more line: how the shown total of the first k lines extends that of the first k - 1. */
  lemma ShownStep(lines: seq<POLine>, sel: Selection, q: Quantities, k: nat)
    requires 0 < k <= |lines|
    ensures var last, front := lines[k - 1], SelectedTotal(lines[..k - 1], sel, q);
            SelectedTotal(lines[..k], sel, q) ==
              if !Flag(sel, last.id) then front
              else if front.None? || last.id !in q then None
              else Some(front.value + Product(q[last.id], last.unitPrice))
  {
    var l := lines[..k];
    assert |l| - 1 == k - 1;
    assert l[..|l| - 1] == lines[..k - 1];
    assert l[|l| - 1] == lines[k - 1];
  }

  /** One more line: how the ticked ids of the first k lines extend those of the first k - 1. */
  lemma TickedStep(lines: seq<POLine>, sel: Selection, k: nat)
    requires 0 < k <= |lines|
    ensures TickedLineIds(lines[..k], sel) ==
              if Flag(sel, lines[k - 1].id) then TickedLineIds(lines[..k - 1], sel) + [lines[k - 1].id]
              else TickedLineIds(lines[..k - 1], sel)
  {
    assert lines[..k][..k - 1] == lines[..k - 1];
    assert lines[..k][k - 1] == lines[k - 1];
  }

  /** With distinct line ids, the charge of a line's id is its entered quantity times its own unit price. */
  lemma LineChargeOfLine(lines: seq<POLine>, q: Quantities, i: nat)
    requires i < |lines| && DistinctLineIds(lines) && lines[i].id in q
    ensures LineCharge(lines, q, lines[i].id) == Product(q[lines[i].id], lines[i].unitPrice)
  {
    FindLineFirst(lines, lines[i].id, i);
  }

  /** One more id at the end adds its charge. */
  lemma IdsTotalSnoc(t: seq<int>, id: int, lines: seq<POLine>, q: Quantities)
    ensures IdsTotal(t + [id], lines, q) == IdsTotal(t, lines, q) + LineCharge(lines, q, id)
  {
    assert (t + [id])[..|t|] == t;
  }

  /** The shown total over the first k lines is IdsTotal of their ticked ids. */
  lemma {:induction false} ShownTotalOfPrefix(lines: seq<POLine>, sel: Selection, q: Quantities, k: nat)
    requires k <= |lines| && DistinctLineIds(lines)
    requires SelectedTotal(lines[..k], sel, q).Some?
    ensures SelectedTotal(lines[..k], sel, q).value == IdsTotal(TickedLineIds(lines[..k], sel), lines, q)
  {
    if k > 0 {
      var last := lines[k - 1];
      ShownStep(lines, sel, q, k);
      TickedStep(lines, sel, k);
      ShownTotalOfPrefix(lines, sel, q, k - 1);
      if Flag(sel, last.id) {
        LineChargeOfLine(lines, q, k - 1);
        IdsTotalSnoc(TickedLineIds(lines[..k - 1], sel), last.id, lines, q);
      }
    }
  }

  /**
   * The total the page shows under the table is the total of the single
   * invoice it generates from the same state: the same products, summed in
   * line order on one side and in entry order on the other. This holds
   * when the line ids are distinct and every ticked id has a line and an
   * entered quantity.
   */
  lemma ShownTotalIsInvoiceTotal(po: PurchaseOrder, lines: seq<POLine>, sel: Selection, q: Quantities, stamp: Stamp)
    requires DistinctLineIds(lines) && DistinctIds(sel)
    requires forall id :: id in SelectedIds(sel) ==> FindLine(lines, id).Some? && id in q
    ensures GenerateInvoiceFromPO(po, lines, sel, q, false, "", stamp).Some?
    ensures SelectedTotal(lines, sel, q) == Some(GenerateInvoiceFromPO(po, lines, sel, q, false, "", stamp).value.total)
  {
    var ids := SelectedIds(sel);
    assert forall i :: 0 <= i < |ids| ==> ids[i] in ids;
    DerivedTotal(ids, lines, q);
    forall i | 0 <= i < |lines| && Flag(sel, lines[i].id)
      ensures lines[i].id in q
    {
      FlagIff(sel, lines[i].id);
    }
    assert lines[..|lines|] == lines;
    ShownTotalOfPrefix(lines, sel, q, |lines|);
    var ticked := TickedLineIds(lines, sel);
    SelectedIdsNoRepeats(sel);
    forall j | 0 <= j < |ticked|
      ensures ticked[j] in ids
    {
      FlagIff(sel, ticked[j]);
    }
    forall j | 0 <= j < |ids|
      ensures ids[j] in ticked
    {
      FlagIff(sel, ids[j]);
      var l := FindLine(lines, ids[j]).value;
      var i :| 0 <= i < |lines| && lines[i] == l;
    }
    IdsTotalReordered(ticked, ids, lines, q);
  }

  // ---------------------------------------------------------------------
  // The split as the page calls it

  /** The keys `Object.entries(lineItems)` yields for an array of n lines, "0" to "n-1", read as ids. */
  function Indices(n: nat): (r: seq<int>)
    ensures |r| == n
    ensures forall j :: 0 <= j < n ==> r[j] == j
  {
    seq(n, j requires 0 <= j < n => j)
  }

  /**
   * One group of the split as the page's call runs it: the group's
   * "selection" maps each index to ceil(selectedItems[index] / k), which is
   * truthy only for an index whose id is ticked; such an entry looks its
   * line up in a plain object and throws. Otherwise nothing is selected and
   * the invoice has no lines, and since the index lands in the `includeIndex`
   * position, its number has no suffix.
   */
  function MisroutedGroup(po: PurchaseOrder, sel: Selection, group: seq<int>, stamp: Stamp): (r: Option<GeneratedInvoice>)
    ensures r.Some? <==> forall id :: id in group ==> !Flag(sel, id)
    ensures r.Some? ==> r.value.lineItems == [] && r.value.total == 0.0
    ensures r.Some? ==> r.value.invoiceNumber == GenerateInvoiceNumber(Text(po.fields, "poNumber"), "")
  {
    if !forall id :: id in group ==> !Flag(sel, id) then None
    else
      var unticked := seq(|group|, t requires 0 <= t < |group| => (group[t], false));
      NothingTickedNoIds(unticked);
      GenerateInvoiceFromPO(po, [], unticked, map[], true, "", stamp)
  }

  lemma {:induction false} NothingTickedNoIds(sel: Selection)
    requires forall t :: 0 <= t < |sel| ==> !sel[t].1
    ensures SelectedIds(sel) == []
  {
    if |sel| > 0 {
      NothingTickedNoIds(sel[..|sel| - 1]);
    }
  }

  function MisroutedGroups(po: PurchaseOrder, sel: Selection, groups: seq<seq<int>>, stamp: Stamp)
    : (r: Option<seq<GeneratedInvoice>>)
    ensures r.Some? <==> forall id :: id in Flatten(groups) ==> !Flag(sel, id)
    ensures r.Some? ==> |r.value| == |groups|
    ensures r.Some? ==> forall i :: 0 <= i < |r.value| ==> r.value[i].lineItems == [] && r.value[i].total == 0.0
    ensures r.Some? ==> forall i :: 0 <= i < |r.value| ==>
              r.value[i].invoiceNumber == GenerateInvoiceNumber(Text(po.fields, "poNumber"), "")
  {
    if |groups| == 0 then Some([])
    else
      var n := |groups|;
      var front := MisroutedGroups(po, sel, groups[..n - 1], stamp);
      var last := MisroutedGroup(po, sel, groups[n - 1], stamp);
      assert Flatten(groups) == Flatten(groups[..n - 1]) + groups[n - 1];
      if front.None? then
        assert !forall id :: id in Flatten(groups) ==> !Flag(sel, id) by {
          var x :| x in Flatten(groups[..n - 1]) && Flag(sel, x);
          assert x in Flatten(groups);
        }
        None
      else if last.None? then
        assert !forall id :: id in Flatten(groups) ==> !Flag(sel, id) by {
          var x :| x in groups[n - 1] && Flag(sel, x);
          assert x in Flatten(groups);
        }
        None
      else
        Some(front.value + [last.value])
  }

  /**
   * `generateMultipleInvoices(poData, lineItems, selectedItems, quantities)`
   * as the page calls it, against a utility whose parameters are
   * `(poData, selectedItems, quantities)`: it fails exactly when a ticked id
   * equals the position of some line, and otherwise yields
   * min(3, ceil(n / 2)) invoices for n lines that bill nothing and share one number.
   */
  function SplitAsWritten(po: PurchaseOrder, lines: seq<POLine>, sel: Selection, stamp: Stamp)
    : (r: Option<seq<GeneratedInvoice>>)
    ensures r.Some? <==> forall j :: 0 <= j < |lines| ==> !Flag(sel, j)
    ensures r.Some? ==> |r.value| == GroupCount(|lines|)
    ensures r.Some? ==> forall i :: 0 <= i < |r.value| ==> r.value[i].lineItems == [] && r.value[i].total == 0.0
    ensures r.Some? ==> forall i :: 0 <= i < |r.value| ==>
              r.value[i].invoiceNumber == GenerateInvoiceNumber(Text(po.fields, "poNumber"), "")
  {
    var k := GroupCount(|lines|);
    if k == 0 then Some([])
    else
      var groups := Slices(Indices(|lines|), k);
      GroupsCoverPositions(|lines|, k);
      var r := MisroutedGroups(po, sel, groups, stamp);
      assert r.Some? ==> forall j :: 0 <= j < |lines| ==> !Flag(sel, j) by {
        if r.Some? {
          forall j | 0 <= j < |lines|
            ensures !Flag(sel, j)
          {
            assert j in Flatten(groups);
          }
        }
      }
      assert r.None? ==> exists j :: 0 <= j < |lines| && Flag(sel, j) by {
        if r.None? {
          var x :| x in Flatten(groups) && Flag(sel, x);
          assert 0 <= x < |lines|;
        }
      }
      r
  }

  /** The groups of positions together hold exactly the positions 0 to n-1. */
  lemma GroupsCoverPositions(n: nat, k: nat)
    requires 1 <= k <= 3
    ensures forall id :: id in Flatten(Slices(Indices(n), k)) <==> 0 <= id < n
  {
    var idx := Indices(n);
    SlicesPartition(idx, k);
    forall id | 0 <= id < n
      ensures id in idx
    {
      assert idx[id] == id;
    }
  }

  /**
   * With three or more lines and no ticked id equal to a line's position,
   * the page's split yields several invoices that bill nothing under one
   * number, where the utility promises non-empty invoices numbered -01, -02, ...
   */
  lemma SplitAsWrittenDropsLines(po: PurchaseOrder, lines: seq<POLine>, sel: Selection, stamp: Stamp)
    requires |lines| >= 3
    requires forall j :: 0 <= j < |lines| ==> !Flag(sel, j)
    ensures var r := SplitAsWritten(po, lines, sel, stamp);
            && r.Some? && |r.value| >= 2
            && r.value[0].lineItems == [] && r.value[0].invoiceNumber == r.value[1].invoiceNumber
  {
  }

  /** The initial line has id 1: ticking it with a second line present makes the page's split fail. */
  lemma SplitAsWrittenFailsOnInitialLine(po: PurchaseOrder, lines: seq<POLine>, sel: Selection, stamp: Stamp)
    requires |lines| >= 2 && Flag(sel, 1)
    ensures SplitAsWritten(po, lines, sel, stamp).None?
  {
  }

  /** The page's state. */
  class POInvoicePage {
    var strategy: Strategy
    var selectedItems: Selection
    var quantities: Quantities
    var previewOpen: bool
    var generated: seq<GeneratedInvoice>
    var toast: Option<string>

    constructor()
      ensures strategy == Single && selectedItems == [] && quantities == map[]
      ensures !previewOpen && generated == [] && toast.None?
    {
      strategy := Single;
      selectedItems := [];
      quantities := map[];
      previewOpen := false;
      generated := [];
      toast := None;
    }

    /** The effect that runs when the lines change: quantities start at the ordered ones. */
    method InitQuantities(lines: seq<POLine>)
      modifies this
      ensures quantities == InitialQuantities(lines)
      ensures selectedItems == old(selectedItems) && strategy == old(strategy) && generated == old(generated)
    {
      var initial: Quantities := map[];
      var i := 0;
      while i < |lines|
        invariant 0 <= i <= |lines|
        invariant initial == InitialQuantities(lines[..i])
      {
        assert lines[..i + 1][..i] == lines[..i];
        initial := initial[lines[i].id := lines[i].quantity];
        i := i + 1;
      }
      assert lines[..i] == lines;
      quantities := initial;
    }

    /** `handleItemSelect(id)`. */
    method ItemSelect(id: int)
      modifies this
      ensures selectedItems == ToggleSelection(old(selectedItems), id)
      ensures quantities == old(quantities) && strategy == old(strategy) && generated == old(generated)
    {
      selectedItems := ToggleSelection(selectedItems, id);
    }

    /** `handleQuantityChange(id, value)`. */
    method QuantityChange(lines: seq<POLine>, id: int, value: string)
      modifies this
      ensures quantities == old(quantities)[id := ClampQuantity(lines, id, value)]
      ensures selectedItems == old(selectedItems) && strategy == old(strategy) && generated == old(generated)
    {
      quantities := quantities[id := ClampQuantity(lines, id, value)];
    }

    /**
     * The header checkbox: every line is set to the negation of "all
     * selected", so afterwards all lines are ticked or all are not.
     */
    method ToggleSelectAll(lines: seq<POLine>)
      modifies this
      ensures selectedItems == SelectAllSelection(lines, !AllSelected(old(selectedItems), lines))
      ensures quantities == old(quantities) && strategy == old(strategy) && generated == old(generated)
    {
      var flag := !AllSelected(selectedItems, lines);
      var selection: Selection := [];
      var i := 0;
      while i < |lines|
        invariant 0 <= i <= |lines|
        invariant selection == SelectAllSelection(lines[..i], flag)
      {
        assert lines[..i + 1][..i] == lines[..i];
        if lines[i].id !in Keys(selection) {
          selection := selection + [(lines[i].id, flag)];
        }
        i := i + 1;
      }
      assert lines[..i] == lines;
      selectedItems := selection;
    }

    /** `handleGenerateInvoices()` with the clock readings `stamp`: the outcome is shown, the choices are kept. */
    method GenerateInvoices(po: PurchaseOrder, lines: seq<POLine>, stamp: Stamp) returns (outcome: Outcome)
      modifies this
      ensures ValidationErrors(selectedItems, quantities) != [] ==> outcome == Rejected(ValidationErrors(selectedItems, quantities)[0])
      ensures ValidationErrors(selectedItems, quantities) == [] && strategy == Single ==>
                var single := GenerateInvoiceFromPO(po, lines, selectedItems, quantities, false, "", stamp);
                outcome == if single.Some? then Generated([single.value]) else Failed
      ensures ValidationErrors(selectedItems, quantities) == [] && strategy == Multiple ==>
                var found := forall id :: id in SelectedIds(selectedItems) ==> FindLine(po.lineItems, id).Some?;
                && (found ==> outcome.Generated? && IsSplitOf(po, SelectedIds(selectedItems), quantities, outcome.invoices)
                              && |outcome.invoices| >= 1)
                && (!found ==> outcome == Failed)
      ensures selectedItems == old(selectedItems) && quantities == old(quantities) && strategy == old(strategy)
      ensures outcome.Rejected? ==> toast == Some(outcome.message) && generated == old(generated) && previewOpen == old(previewOpen)
      ensures outcome.Failed? ==> toast == Some(FailureMessage) && generated == old(generated) && previewOpen == old(previewOpen)
      ensures outcome.Generated? ==> generated == outcome.invoices && previewOpen && toast == old(toast)
    {
      outcome := HandleGenerate(po, lines, selectedItems, quantities, strategy, stamp);
      Show(outcome);
    }

    /** The page's reaction to an outcome: the toast, or the invoices in the opened preview. */
    method Show(outcome: Outcome)
      modifies this
      ensures selectedItems == old(selectedItems) && quantities == old(quantities) && strategy == old(strategy)
      ensures outcome.Rejected? ==> toast == Some(outcome.message) && generated == old(generated) && previewOpen == old(previewOpen)
      ensures outcome.Failed? ==> toast == Some(FailureMessage) && generated == old(generated) && previewOpen == old(previewOpen)
      ensures outcome.Generated? ==> generated == outcome.invoices && previewOpen && toast == old(toast)
    {
      match outcome
      case Rejected(message) => toast := Some(message);
      case Failed => toast := Some(FailureMessage);
      case Generated(invoices) =>
        generated := invoices;
        previewOpen := true;
    }
  }

  /** What generating shows: the first validation message, the failure toast, or the invoices. */
  datatype Outcome = Rejected(message: string) | Failed | Generated(invoices: seq<GeneratedInvoice>)

  /**
   * The decision `handleGenerateInvoices` takes: when validation reports
   * errors the first is shown and nothing is generated; otherwise the single
   * strategy yields exactly one invoice and the multiple strategy the split
   * of the ticked ids (IsSplitOf), at least one invoice; where generation throws (a ticked id
   * without a line) the failure message is shown instead.
   */
  method HandleGenerate(po: PurchaseOrder, lines: seq<POLine>, sel: Selection, q: Quantities, strategy: Strategy, stamp: Stamp)
    returns (outcome: Outcome)
    ensures ValidationErrors(sel, q) != [] ==> outcome == Rejected(ValidationErrors(sel, q)[0])
    ensures ValidationErrors(sel, q) == [] && strategy == Single ==>
              var single := GenerateInvoiceFromPO(po, lines, sel, q, false, "", stamp);
              outcome == if single.Some? then Generated([single.value]) else Failed
    ensures ValidationErrors(sel, q) == [] && strategy == Multiple ==>
              var found := forall id :: id in SelectedIds(sel) ==> FindLine(po.lineItems, id).Some?;
              && (found ==> outcome.Generated? && IsSplitOf(po, SelectedIds(sel), q, outcome.invoices) && |outcome.invoices| >= 1)
              && (!found ==> outcome == Failed)
  {
    var errors := ValidateInvoiceGeneration(sel, q);
    if |errors| > 0 {
      return Rejected(errors[0]);
    }
    if strategy == Single {
      var single := GenerateInvoiceFromPO(po, lines, sel, q, false, "", stamp);
      outcome := if single.Some? then Generated([single.value]) else Failed;
    } else {
      var split := GenerateMultipleInvoices(po, sel, q, stamp);
      TickedIdsNonEmpty(sel);
      var ids := SelectedIds(sel);
      assert (forall id :: id in ids ==> FindLine(po.lineItems, id).Some?) <==>
             (forall j :: 0 <= j < |ids| ==> FindLine(po.lineItems, ids[j]).Some?);
      outcome := if split.Some? then Generated(split.value) else Failed;
    }
  }

  /** Something ticked means at least one selected id, and so at least one invoice in a split. */
  lemma TickedIdsNonEmpty(sel: Selection)
    requires HasSelection(sel)
    ensures |SelectedIds(sel)| >= 1 && GroupCount(|SelectedIds(sel)|) >= 1
  {
    var i :| 0 <= i < |sel| && sel[i].1;
    assert sel[i] == (sel[i].0, true);
    assert sel[i].0 in SelectedIds(sel);
  }
}
