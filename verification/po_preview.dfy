/**
 * src/domains/purchaseOrder/components/POPreview.jsx: the printable
 * purchase order's total, its status line and its terms and conditions.
 */
module POPreview {
  import opened JsCore
  import opened Documents
  import opened POGeneration

  /** The sum of the stored line totals. */
  function StoredTotal(lines: seq<POLine>): real
  {
    if |lines| == 0 then 0.0 else StoredTotal(lines[..|lines| - 1]) + lines[|lines| - 1].totalPrice
  }

  /**
   * `calculateTotal()` sums quantity * unitPrice per row, as each row shows
   * it; while every stored line total is kept consistent it equals the sum of
   * the stored totals.
   */
  lemma {:induction false} CalculateTotalMatchesStored(lines: seq<POLine>)
    requires TotalsConsistent(lines)
    ensures OrderValue(lines) == StoredTotal(lines)
  {
    if |lines| > 0 {
      var front := lines[..|lines| - 1];
      assert TotalsConsistent(front) by {
        assert forall i :: 0 <= i < |front| ==> front[i] == lines[i];
      }
      CalculateTotalMatchesStored(front);
      assert TotalConsistent(lines[|lines| - 1]);
    }
  }

  /** `poData.status.toUpperCase()`. */
  function StatusText(status: string): (r: string)
    ensures |r| == |status|
    ensures forall i :: 0 <= i < |r| ==> !IsAsciiLower(r[i])
    ensures forall i :: 0 <= i < |r| ==> !IsAsciiLower(status[i]) ==> r[i] == status[i]
  {
    ToUpper(status)
  }

  const CurrencyClause := "All prices are in USD unless otherwise specified"

  const ReferenceClause := "Please reference PO number on all correspondence"

  const ThreeWayClause := "This PO requires 3-way matching (PO, Invoice, and Goods Receipt) for payment processing"

  const TwoWayClause := "This PO requires 2-way matching (PO and Invoice) for payment processing"

  const ConfirmClause := "Please confirm receipt of this purchase order"

  /**
   * The terms list: the three fixed clauses always, in place; the 3-way
   * clause exactly for "3-way" and the 2-way clause exactly for "2-way", so
   * never both and neither for any other value.
   */
  function Terms(matchType: string): (r: seq<string>)
    ensures |r| == if matchType == "2-way" || matchType == "3-way" then 4 else 3
    ensures r[0] == CurrencyClause && r[1] == ReferenceClause && r[|r| - 1] == ConfirmClause
    ensures ThreeWayClause in r <==> matchType == "3-way"
    ensures TwoWayClause in r <==> matchType == "2-way"
  {
    [CurrencyClause, ReferenceClause]
    + (if matchType == "3-way" then [ThreeWayClause] else [])
    + (if matchType == "2-way" then [TwoWayClause] else [])
    + [ConfirmClause]
  }
}
