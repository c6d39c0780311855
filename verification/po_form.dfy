/**
 * src/domains/purchaseOrder/components/POForm.jsx: the purchase-order
 * editor's input handler, its inline subtotal, the number coercion of the
 * line inputs and the match-type explanation.
 */
module POForm {
  import opened JsCore
  import opened Documents

  /**
   * `handleInputChange(e, section)`: the purchase order it hands to the
   * setter, with `poData[section][name]` or `poData[name]` set to the value
   * and nothing else changed.
   */
  function HandleInputChange(po: PurchaseOrder, section: Option<string>, name: string, value: string): (r: PurchaseOrder)
    ensures r.lineItems == po.lineItems
    ensures section.None? ==>
              && Text(r.fields, name) == value
              && (forall k :: k != name ==> Text(r.fields, k) == Text(po.fields, k))
              && r.sections == po.sections
    ensures section.Some? ==>
              && r.fields == po.fields
              && Text(Section(r.sections, section.value), name) == value
              && (forall k :: k != name ==> Text(Section(r.sections, section.value), k) == Text(Section(po.sections, section.value), k))
              && (forall t :: t != section.value ==> Section(r.sections, t) == Section(po.sections, t))
  {
    match section
    case None => po.(fields := SetField(po.fields, name, value))
    case Some(s) => po.(sections := po.sections[s := SetField(Section(po.sections, s), name, value)])
  }

  /** Typing a value that is already there changes nothing a template can read. */
  lemma SameInputIsNoChange(po: PurchaseOrder, section: Option<string>, name: string)
    ensures var value := if section.None? then Text(po.fields, name) else Text(Section(po.sections, section.value), name);
            var r := HandleInputChange(po, section, name, value);
            && (forall k :: Text(r.fields, k) == Text(po.fields, k))
            && (forall t, k :: Text(Section(r.sections, t), k) == Text(Section(po.sections, t), k))
  {
  }

  /** `parseFloat(e.target.value) || 0`: what a quantity or unit-price input stores. */
  function CoerceNumber(text: string): real
  {
    match ParseFloat(text)
    case None => 0.0
    case Some(v) => v
  }

  /** The text of a whole number is stored as that number. */
  lemma CoerceWholeNumber(n: nat)
    ensures CoerceNumber(NatToString(n)) == n as real
  {
    ParseFloatOfNatToString(n);
  }

  /**
   * Text that does not start like a number (an empty input, a letter) is
   * stored as 0. Text starting with "I" is excluded: parseFloat reads
   * "Infinity" there, which `|| 0` keeps; the `type="number"` inputs never
   * supply it.
   */
  lemma CoerceNonNumber(text: string)
    requires text == "" || (!IsDigit(text[0]) && !IsSpace(text[0]) && text[0] !in "+-.I")
    ensures CoerceNumber(text) == 0.0
  {
    assert LeadingSpaces(text) == 0 && text[0..] == text;
    assert SignLength(text) == 0;
    assert LeadingDigits(text) == 0;
  }

  const TwoWayText := "2-Way matching compares PO and Invoice only"

  const ThreeWayText := "3-Way matching includes Goods Receipt verification"

  /** The explanation under the match-type choice: the 2-way text for "2-way", the 3-way text for any other value. */
  function MatchTypeText(matchType: string): (r: string)
    ensures r == TwoWayText <==> matchType == "2-way"
    ensures r == ThreeWayText <==> matchType != "2-way"
  {
    if matchType == "2-way" then TwoWayText else ThreeWayText
  }
}
