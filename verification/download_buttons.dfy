/**
 * src/components/DownloadButtons.jsx: downloading the edited invoice as a
 * PDF, and the annual batch of twelve monthly invoices. The PDF renderer is
 * an oracle `render` from the invoice data on screen to an optional file.
 */
module DownloadButtons {
  import opened JsCore
  import opened Calendar
  import opened Documents
  import opened InvoiceLedger

  const DateMessage := "Please set an invoice date"
  const DueDateMessage := "Please set a due date"
  const PdfFailureMessage := "Failed to generate pdf"

  /** The annual batch covers month offsets 0 to 11. */
  const MonthsPerYear: nat := 12

  /** `validateInvoiceData(data)`: the message shown when the data may not be exported, None when it may. */
  function ValidateInvoiceData(data: InvoiceData): (r: Option<string>)
    ensures r.None? <==> Text(data.fields, "date") != "" && Text(data.fields, "dueDate") != ""
    ensures Text(data.fields, "date") == "" ==> r == Some(DateMessage)
    ensures Text(data.fields, "date") != "" && Text(data.fields, "dueDate") == "" ==> r == Some(DueDateMessage)
  {
    if Text(data.fields, "date") == "" then Some(DateMessage)
    else if Text(data.fields, "dueDate") == "" then Some(DueDateMessage)
    else None
  }

  /** `new Date(d.getFullYear(), d.getMonth() + offset, d.getDate())`. */
  function MonthlyDate(d: Date, offset: nat): Date
  {
    ConstructDate(d.year, d.month - 1 + offset, d.day)
  }

  /** `${invoiceNumber}-${String(offset + 1).padStart(2, "0")}`. */
  function MonthlyNumber(invoiceNumber: string, offset: nat): string
  {
    invoiceNumber + "-" + Pad2(offset + 1)
  }

  /**
   * `generateMonthlyInvoiceData(base, offset)`: null (None) when the base date
   * does not read as a date; otherwise the base with the number suffixed by
   * the two-digit month, the date moved by `offset` months with JavaScript's
   * rollover, and the due date 30 calendar days after it. Everything else is
   * copied.
   */
  function GenerateMonthlyInvoiceData(base: InvoiceData, offset: nat): (r: Option<InvoiceData>)
    ensures r.None? <==> ParseIso(Text(base.fields, "date")).None?
    ensures r.Some? ==>
              var date := MonthlyDate(ParseIso(Text(base.fields, "date")).value, offset);
              && Text(r.value.fields, "date") == FormatIso(date)
              && Text(r.value.fields, "dueDate") == FormatIso(AddDays(date, 30))
    ensures r.Some? ==> Text(r.value.fields, "invoiceNumber") == MonthlyNumber(Text(base.fields, "invoiceNumber"), offset)
    ensures r.Some? ==> forall k :: k != "date" && k != "dueDate" && k != "invoiceNumber" ==>
              Text(r.value.fields, k) == Text(base.fields, k)
    ensures r.Some? ==> r.value.sections == base.sections && r.value.currency == base.currency
  {
    match ParseIso(Text(base.fields, "date"))
    case None => None
    case Some(d) =>
      var date := MonthlyDate(d, offset);
      var due := AddDays(date, 30);
      var fields := base.fields["invoiceNumber" := MonthlyNumber(Text(base.fields, "invoiceNumber"), offset)]
                                ["date" := FormatIso(date)]["dueDate" := FormatIso(due)];
      Some(base.(fields := fields))
  }

  /** The day of the month is kept when the target month has it, and otherwise rolls over, never clamped. */
  lemma MonthlyRollover()
    ensures MonthlyDate(Date(2024, 1, 31), 1) == Date(2024, 3, 2)
    ensures MonthlyDate(Date(2023, 1, 31), 1) == Date(2023, 3, 3)
    ensures MonthlyDate(Date(2024, 11, 15), 2) == Date(2025, 1, 15)
    ensures FormatIso(Date(2024, 3, 2)) == "2024-03-02"
  {
    assert Normalize(2024, 3, 2) == Date(2024, 3, 2);
    assert Normalize(2023, 3, 3) == Date(2023, 3, 3);
    assert Normalize(2025, 1, 15) == Date(2025, 1, 15);
  }

  /** The twelve monthly numbers are pairwise distinct. */
  lemma MonthlyNumbersDistinct(invoiceNumber: string, i: nat, j: nat)
    requires i < 99 && j < 99 && i != j
    ensures MonthlyNumber(invoiceNumber, i) != MonthlyNumber(invoiceNumber, j)
    ensures MonthlyNumber(invoiceNumber, i) + ".pdf" != MonthlyNumber(invoiceNumber, j) + ".pdf"
  {
    Pad2Injective(i + 1, j + 1);
    Pad2Digits(i + 1);
    Pad2Digits(j + 1);
    var n := |invoiceNumber| + 1;
    var a, b := MonthlyNumber(invoiceNumber, i) + ".pdf", MonthlyNumber(invoiceNumber, j) + ".pdf";
    assert a[n..n + 2] == Pad2(i + 1);
    assert b[n..n + 2] == Pad2(j + 1);
  }

  // ---------------------------------------------------------------------
  // Single download

  /** A file handed to the browser or put in the archive. */
  datatype PdfFile = PdfFile(name: string, pdf: Blob)

  datatype DownloadResult = Invalid(message: string) | Failed(message: string) | Saved(file: PdfFile)

  /**
   * `handleDownload("pdf")` with `rendered` the renderer's output: invalid
   * data is refused before rendering, a missing render is reported as a
   * failure, and otherwise the file is named after the invoice number.
   */
  function DownloadPdf(data: InvoiceData, rendered: Option<Blob>): (r: DownloadResult)
    ensures r.Invalid? <==> ValidateInvoiceData(data).Some?
    ensures r.Invalid? ==> r.message == ValidateInvoiceData(data).value
    ensures r.Failed? <==> ValidateInvoiceData(data).None? && rendered.None?
    ensures r.Saved? ==> r.file == PdfFile(Text(data.fields, "invoiceNumber") + ".pdf", rendered.value)
  {
    match ValidateInvoiceData(data)
    case Some(message) => Invalid(message)
    case None =>
      match rendered
      case None => Failed(PdfFailureMessage)
      case Some(blob) => Saved(PdfFile(Text(data.fields, "invoiceNumber") + ".pdf", blob))
  }

  // ---------------------------------------------------------------------
  // Annual batch

  /** The twelve months' data, `generateMonthlyInvoiceData(original, i)` for i = 0..11. */
  function MonthlyData(base: InvoiceData): (r: seq<Option<InvoiceData>>)
    ensures |r| == MonthsPerYear
  {
    seq(MonthsPerYear, i requires 0 <= i < MonthsPerYear => GenerateMonthlyInvoiceData(base, i))
  }

  /** The file a month contributes: none for a skipped month or an empty render; else named after its number. */
  function FileFor(monthly: Option<InvoiceData>, render: InvoiceData -> Option<Blob>): Option<PdfFile>
  {
    match monthly
    case None => None
    case Some(m) =>
      match render(m)
      case None => None
      case Some(blob) => Some(PdfFile(Text(m.fields, "invoiceNumber") + ".pdf", blob))
  }

  /** The months among the first n that yield a file, ascending. */
  function RenderedOffsets(months: seq<Option<InvoiceData>>, render: InvoiceData -> Option<Blob>, n: nat): (r: seq<nat>)
    requires n <= |months|
    ensures |r| <= n
    ensures forall i :: 0 <= i < |r| ==> r[i] < n && FileFor(months[r[i]], render).Some?
    ensures forall i, j :: 0 <= i < j < |r| ==> r[i] < r[j]
  {
    if n == 0 then []
    else
      var front := RenderedOffsets(months, render, n - 1);
      if FileFor(months[n - 1], render).Some? then front + [n - 1] else front
  }

  /** No month that yields a file is left out. */
  lemma {:induction false} RenderedOffsetsComplete(months: seq<Option<InvoiceData>>, render: InvoiceData -> Option<Blob>, n: nat, o: nat)
    requires n <= |months| && o < n && FileFor(months[o], render).Some?
    ensures o in RenderedOffsets(months, render, n)
  {
    if o < n - 1 {
      RenderedOffsetsComplete(months, render, n - 1, o);
    }
  }

  /** The archive's files after the first n months, in month order. */
  function AnnualFiles(months: seq<Option<InvoiceData>>, render: InvoiceData -> Option<Blob>, n: nat): (r: seq<PdfFile>)
    requires n <= |months|
    ensures |r| == |RenderedOffsets(months, render, n)|
    ensures forall i :: 0 <= i < |r| ==> Some(r[i]) == FileFor(months[RenderedOffsets(months, render, n)[i]], render)
  {
    if n == 0 then []
    else
      var front := AnnualFiles(months, render, n - 1);
      var offsets := RenderedOffsets(months, render, n - 1);
      match FileFor(months[n - 1], render)
      case None =>
        assert RenderedOffsets(months, render, n) == offsets;
        front
      case Some(file) =>
        assert RenderedOffsets(months, render, n) == offsets + [n - 1];
        assert forall i :: 0 <= i < |front| ==> (front + [file])[i] == front[i];
        front + [file]
  }

  /** Every file is named `${number}-MM.pdf` for its month, so no two files of the archive share a name. */
  lemma AnnualFileNames(base: InvoiceData, render: InvoiceData -> Option<Blob>)
    ensures var files := AnnualFiles(MonthlyData(base), render, MonthsPerYear);
            var offsets := RenderedOffsets(MonthlyData(base), render, MonthsPerYear);
            forall i :: 0 <= i < |files| ==>
              files[i].name == MonthlyNumber(Text(base.fields, "invoiceNumber"), offsets[i]) + ".pdf"
    ensures var files := AnnualFiles(MonthlyData(base), render, MonthsPerYear);
            forall i, j :: 0 <= i < j < |files| ==> files[i].name != files[j].name
  {
    var months := MonthlyData(base);
    var files := AnnualFiles(months, render, MonthsPerYear);
    var offsets := RenderedOffsets(months, render, MonthsPerYear);
    var number := Text(base.fields, "invoiceNumber");
    forall i | 0 <= i < |files|
      ensures files[i].name == MonthlyNumber(number, offsets[i]) + ".pdf"
    {
      assert months[offsets[i]] == GenerateMonthlyInvoiceData(base, offsets[i]);
    }
    forall i, j | 0 <= i < j < |files|
      ensures files[i].name != files[j].name
    {
      MonthlyNumbersDistinct(number, offsets[i], offsets[j]);
    }
  }

  /** When every month yields a file, all of them are in the archive. */
  lemma {:induction false} AllRendered(months: seq<Option<InvoiceData>>, render: InvoiceData -> Option<Blob>, n: nat)
    requires n <= |months|
    requires forall i :: 0 <= i < n ==> FileFor(months[i], render).Some?
    ensures |AnnualFiles(months, render, n)| == n
  {
    if n > 0 {
      AllRendered(months, render, n - 1);
    }
  }

  /** When no month yields a file, the archive is empty. */
  lemma {:induction false} NoneRendered(months: seq<Option<InvoiceData>>, render: InvoiceData -> Option<Blob>, n: nat)
    requires n <= |months|
    requires forall i :: 0 <= i < n ==> FileFor(months[i], render).None?
    ensures AnnualFiles(months, render, n) == []
  {
    if n > 0 {
      NoneRendered(months, render, n - 1);
    }
  }

  /**
   * A readable date and a renderer that always yields a file give all twelve
   * months; a date that does not read as a date skips every month.
   */
  lemma AnnualFilesCount(base: InvoiceData, render: InvoiceData -> Option<Blob>)
    ensures ParseIso(Text(base.fields, "date")).Some? && (forall d :: render(d).Some?) ==>
              |AnnualFiles(MonthlyData(base), render, MonthsPerYear)| == MonthsPerYear
    ensures ParseIso(Text(base.fields, "date")).None? ==> AnnualFiles(MonthlyData(base), render, MonthsPerYear) == []
  {
    var months := MonthlyData(base);
    if ParseIso(Text(base.fields, "date")).Some? && forall d :: render(d).Some? {
      forall i | 0 <= i < MonthsPerYear
        ensures FileFor(months[i], render).Some?
      {
        assert months[i] == GenerateMonthlyInvoiceData(base, i);
      }
      AllRendered(months, render, MonthsPerYear);
    }
    if ParseIso(Text(base.fields, "date")).None? {
      forall i | 0 <= i < MonthsPerYear
        ensures FileFor(months[i], render).None?
      {
        assert months[i] == GenerateMonthlyInvoiceData(base, i);
      }
      NoneRendered(months, render, MonthsPerYear);
    }
  }

  datatype AnnualResult = Refused(message: string) | Archive(name: string, files: seq<PdfFile>, successCount: nat)

  /** `invoices-${invoiceNumber}.zip`. */
  function ArchiveName(data: InvoiceData): string
  {
    "invoices-" + Text(data.fields, "invoiceNumber") + ".zip"
  }

  /**
   * `handleAnnualInvoices()` on the editor's state: invalid data is refused;
   * otherwise each of the twelve months is put on screen and rendered, the
   * rendered ones go into the archive, the success count is the number of
   * files, and the original invoice data is back on screen at the end.
   */
  method AnnualInvoices(form: InvoiceFormState, render: InvoiceData -> Option<Blob>) returns (r: AnnualResult)
    modifies form
    ensures form.invoiceData == old(form.invoiceData)
    ensures form.lineItems == old(form.lineItems) && form.logo == old(form.logo) && form.taxSettings == old(form.taxSettings)
    ensures ValidateInvoiceData(old(form.invoiceData)).Some? ==> r == Refused(ValidateInvoiceData(old(form.invoiceData)).value)
    ensures ValidateInvoiceData(old(form.invoiceData)).None? ==>
              && r.Archive?
              && r.name == ArchiveName(old(form.invoiceData))
              && r.files == AnnualFiles(MonthlyData(old(form.invoiceData)), render, MonthsPerYear)
              && r.successCount == |r.files|
  {
    var message := ValidateInvoiceData(form.invoiceData);
    if message.Some? {
      return Refused(message.value);
    }
    var original := form.invoiceData;
    var files: seq<PdfFile> := [];
    ghost var months := MonthlyData(original);
    var successCount := 0;
    for i := 0 to MonthsPerYear
      invariant files == AnnualFiles(MonthlyData(original), render, i)
      invariant successCount == |files|
      invariant form.lineItems == old(form.lineItems) && form.logo == old(form.logo)
      invariant form.taxSettings == old(form.taxSettings)
    {
      var monthly := GenerateMonthlyInvoiceData(original, i);
      assert months[i] == monthly;
      if monthly.Some? {
        form.SetInvoiceData(monthly.value);
        // The file the month contributes: its data rendered, named after its number.
        var file := FileFor(monthly, render);
        if file.Some? {
          files := files + [file.value];
          successCount := successCount + 1;
        }
      }
    }
    form.SetInvoiceData(original);
    r := Archive(ArchiveName(original), files, successCount);
  }
}
