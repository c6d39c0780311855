/**
 * src/components/InvoiceForm.jsx: the invoice editor's handlers and totals.
 * Each handler is modelled as the new value it hands to the state setter of
 * the editor (InvoiceLedger.InvoiceFormState).
 */
module InvoiceForm {
  import opened JsCore
  import opened Documents
  import opened InvoiceLedger

  /**
   * `handleInputChange(e, section)`: with a section, `invoiceData[section][name]`
   * becomes the value; without one, `invoiceData[name]` does. Nothing else changes.
   */
  function HandleInputChange(data: InvoiceData, section: Option<string>, name: string, value: string): (r: InvoiceData)
    ensures r.currency == data.currency
    ensures section.None? ==>
              && Text(r.fields, name) == value
              && (forall k :: k != name ==> Text(r.fields, k) == Text(data.fields, k))
              && r.sections == data.sections
    ensures section.Some? ==>
              && r.fields == data.fields
              && Text(Section(r.sections, section.value), name) == value
              && (forall k :: k != name ==> Text(Section(r.sections, section.value), k) == Text(Section(data.sections, section.value), k))
              && (forall t :: t != section.value ==> Section(r.sections, t) == Section(data.sections, t))
  {
    match section
    case None => data.(fields := SetField(data.fields, name, value))
    case Some(s) => data.(sections := data.sections[s := SetField(Section(data.sections, s), name, value)])
  }

  /** Edits of two different inputs do not interfere: either order gives the same invoice. */
  lemma InputChangesCommute(data: InvoiceData, section: Option<string>, a: string, x: string, b: string, y: string)
    requires a != b
    ensures HandleInputChange(HandleInputChange(data, section, a, x), section, b, y)
         == HandleInputChange(HandleInputChange(data, section, b, y), section, a, x)
  {
    if section.Some? {
      var s := section.value;
      var sec := Section(data.sections, s);
      var da := HandleInputChange(data, section, a, x);
      var db := HandleInputChange(data, section, b, y);
      assert da.sections == data.sections[s := sec[a := x]];
      assert db.sections == data.sections[s := sec[b := y]];
      assert Section(da.sections, s) == sec[a := x];
      assert Section(db.sections, s) == sec[b := y];
      assert sec[a := x][b := y] == sec[b := y][a := x];
    } else {
      var f := data.fields;
      assert f[a := x][b := y] == f[b := y][a := x];
    }
  }

  // ---------------------------------------------------------------------
  // Tax settings

  /** The type the tax toggle button switches to. */
  function ToggledTaxType(t: TaxType): (r: TaxType)
    ensures r != t
  {
    if t == Percentage then Fixed else Percentage
  }

  /** `handleTaxTypeChange(type)`: the type is set and the value always cleared. */
  function HandleTaxTypeChange(settings: TaxSettings, kind: TaxType): (r: TaxSettings)
    ensures r.kind == kind && r.value == Blank
  {
    settings.(kind := kind, value := Blank)
  }

  /** Pressing the toggle twice returns to the original type, with the value cleared. */
  lemma TaxToggleTwice(settings: TaxSettings)
    ensures var once := HandleTaxTypeChange(settings, ToggledTaxType(settings.kind));
            HandleTaxTypeChange(once, ToggledTaxType(once.kind)) == settings.(value := Blank)
  {
  }

  /** The test `/^\d*\.?\d*$/`: digits, then at most one dot, then digits. */
  predicate MatchesTaxPattern(s: string)
  {
    var a := LeadingDigits(s);
    a == |s| || (s[a] == '.' && AllDigits(s[a + 1..]))
  }

  /** What the pattern describes, stated independently: only digits and dots, and at most one dot. */
  predicate DigitsWithAtMostOneDot(s: string)
  {
    && (forall i :: 0 <= i < |s| ==> IsDigit(s[i]) || s[i] == '.')
    && (forall i, j :: 0 <= i < j < |s| && s[i] == '.' ==> s[j] != '.')
  }

  /** The recogniser accepts exactly the texts made of digits with at most one dot. */
  lemma TaxPatternIff(s: string)
    ensures MatchesTaxPattern(s) <==> DigitsWithAtMostOneDot(s)
  {
    var a := LeadingDigits(s);
    assert forall i :: 0 <= i < a ==> IsDigit(s[..a][i]);
    if MatchesTaxPattern(s) && a < |s| {
      forall i | a < i < |s|
        ensures IsDigit(s[i])
      {
        assert s[a + 1..][i - a - 1] == s[i];
      }
    }
    if DigitsWithAtMostOneDot(s) && a < |s| {
      var after := s[a + 1..];
      forall i | 0 <= i < |after|
        ensures IsDigit(after[i])
      {
        assert after[i] == s[a + 1 + i];
      }
    }
  }

  /** The tax input's change handler: whether the typed text is taken. */
  predicate AcceptsTaxInput(s: string)
  {
    s == "" || MatchesTaxPattern(s)
  }

  /** `handleTaxValueChange`: the stored value, "" or parseFloat of the text. */
  function TaxInputValue(s: string): TaxValue
  {
    if s == "" then Blank
    else match ParseFloat(s)
      case None => NotANumber
      case Some(v) => Num(v)
  }

  /**
   * An accepted non-empty text is stored as a number that is never
   * negative, except the lone dot, which is stored as NaN.
   */
  lemma AcceptedTaxInput(s: string)
    requires AcceptsTaxInput(s) && s != ""
    ensures TaxInputValue(s) == NotANumber <==> s == "."
    ensures TaxInputValue(s).Num? ==> TaxInputValue(s).v >= 0.0
  {
    TaxPatternIff(s);
    assert !IsSpace(s[0]);
    assert LeadingSpaces(s) == 0 && s[0..] == s;
    assert SignLength(s) == 0 && s[0..] == s;
    var a := LeadingDigits(s);
    if a == 0 && s[0] == '.' {
      var after := s[1..];
      assert AllDigits(after) by {
        assert forall i :: 0 <= i < |after| ==> after[i] == s[i + 1];
      }
      AllDigitsLeading(after);
      assert after[..|after|] == after;
      if s != "." {
        assert |after| > 0;
      }
    }
  }

  // ---------------------------------------------------------------------
  // Totals

  /** `calculateSubtotal()`: the sum of quantity * rate, ignoring the stored amounts. */
  function Subtotal(items: seq<InvoiceLine>): (r: real)
    ensures |items| == 0 ==> r == 0.0
  {
    if |items| == 0 then 0.0
    else Subtotal(items[..|items| - 1]) + items[|items| - 1].quantity * items[|items| - 1].rate
  }

  lemma {:induction false} SubtotalAppend(a: seq<InvoiceLine>, b: seq<InvoiceLine>)
    ensures Subtotal(a + b) == Subtotal(a) + Subtotal(b)
    decreases |b|
  {
    if |b| == 0 {
      assert a + b == a;
    } else {
      assert (a + b)[..|a + b| - 1] == a + b[..|b| - 1];
      SubtotalAppend(a, b[..|b| - 1]);
    }
  }

  /** Two ledgers that agree on every line's quantity and rate have the same subtotal. */
  lemma {:induction false} SubtotalOfSamePrices(a: seq<InvoiceLine>, b: seq<InvoiceLine>)
    requires |a| == |b|
    requires forall i :: 0 <= i < |a| ==> a[i].quantity == b[i].quantity && a[i].rate == b[i].rate
    ensures Subtotal(a) == Subtotal(b)
  {
    if |a| > 0 {
      SubtotalOfSamePrices(a[..|a| - 1], b[..|b| - 1]);
    }
  }

  /**
   * A new blank line adds nothing to the subtotal, and neither a description
   * nor a stored-amount edit changes it.
   */
  lemma SubtotalUnderLedgerEdits(items: seq<InvoiceLine>, freshId: int, id: int, edit: LineEdit)
    requires edit.Description? || edit.Amount?
    ensures Subtotal(items + [BlankLine(freshId)]) == Subtotal(items)
    ensures Subtotal(UpdateLine(items, id, edit)) == Subtotal(items)
  {
    SubtotalAppend(items, [BlankLine(freshId)]);
    assert Subtotal([BlankLine(freshId)]) == Subtotal([]) + 1.0 * 0.0 by {
      assert [BlankLine(freshId)][..0] == [];
    }
    SubtotalOfSamePrices(UpdateLine(items, id, edit), items);
  }

  /** `calculateTax()`: a percentage of the subtotal, or the fixed value; an unset or NaN value counts as 0. */
  function Tax(subtotal: real, settings: TaxSettings): real
  {
    if settings.kind == Percentage then subtotal * TaxNumber(settings.value) / 100.0 else TaxNumber(settings.value)
  }

  /**
   * Tax facts: with the value cleared (as every type change does) the tax is
   * 0; a fixed tax does not depend on the subtotal; a percentage tax grows
   * with the subtotal.
   */
  lemma TaxFacts(subtotal: real, other: real, settings: TaxSettings, kind: TaxType)
    ensures Tax(subtotal, HandleTaxTypeChange(settings, kind)) == 0.0
    ensures settings.kind == Fixed ==> Tax(subtotal, settings) == Tax(other, settings)
    ensures settings.kind == Percentage && TaxNumber(settings.value) >= 0.0 && subtotal <= other ==>
              Tax(subtotal, settings) <= Tax(other, settings)
  {
    if settings.kind == Percentage && TaxNumber(settings.value) >= 0.0 && subtotal <= other {
      var v := TaxNumber(settings.value);
      assert subtotal * v <= other * v;
    }
  }

  /** The total the form shows: subtotal plus tax. */
  function Total(items: seq<InvoiceLine>, settings: TaxSettings): (r: real)
    ensures settings.value == Blank ==> r == Subtotal(items)
    ensures settings.kind == Fixed ==> r == Subtotal(items) + TaxNumber(settings.value)
  {
    Subtotal(items) + Tax(Subtotal(items), settings)
  }

  // ---------------------------------------------------------------------
  // Currency

  /** `handleCurrencyChange(e)`: the table entry for the chosen code; an unknown code leaves no currency. */
  function HandleCurrencyChange(data: InvoiceData, code: string): (r: InvoiceData)
    ensures r.fields == data.fields && r.sections == data.sections
    ensures code in Currencies ==> r.currency == Some(Currencies[code]) && r.currency.value.code == code
    ensures code !in Currencies ==> r.currency.None?
  {
    data.(currency := if code in Currencies then Some(Currencies[code]) else None)
  }
}
