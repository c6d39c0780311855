# Invoice generator: a Dafny model of its logic

The invoice generator is a browser application. In it a user:

- edits an invoice (parties, line items, tax, currency, logo) and downloads it as a PDF, or as a year of monthly copies;
- writes purchase orders;
- turns the ticked lines of a purchase order into one invoice or a split over several.

This project models the parts of that application that compute something:

- the purchase-order to invoice derivation and its split into up to three invoices;
- the bundle of a purchase order with its partial invoices;
- the monthly invoice dates, with JavaScript's `Date` rollover;
- the line-item ledgers of the invoice and purchase-order editors;
- the totals and tax, and the selection and quantity state of the invoicing page;
- the small validators and string functions: date formatting, logo file names and domains, the placeholder-logo colour and initials, the best-logo choice, the paper-effect toggle, the logo aspect-ratio rule and the demo-data check.

Each source file is one Dafny module, named after it. Three modules are shared:

- `JsCore` holds JavaScript's string and number behaviour: `%`, `<<` truncation, `parseInt`/`parseFloat`, `padStart`, `replace` of the first occurrence, ASCII case mapping and `\s`.
- `Calendar` holds Gregorian dates in UTC with `Date` rollover and the `YYYY-MM-DD` text.
- `Documents` holds the records the screens share.

`Split` holds the arithmetic both invoice splits share.

Where the source changes state step by step, the model does the same:

- the editor's state is a class (`InvoiceLedger.InvoiceFormState`, `POGeneration.POGenerationState`, `POInvoiceGeneration.POInvoicePage`, `LogoUpload.LogoPicker`);
- loops are methods with invariants, each proved against a specification function;
- expression code is functions and lemmas.

Money is exact (`real`). Clock readings, the PDF renderer, `btoa` and image decoding are parameters.

## Model

| member | source | states |
|---|---|---|
| InvoiceGenerator.GenerateInvoiceNumber | src/domains/purchaseOrder/utils/invoiceGeneratorUtils.js:3-7 | the number always starts with "INV-" |
| InvoiceGenerator.GenerateInvoiceNumberCases | src/domains/purchaseOrder/utils/invoiceGeneratorUtils.js:5-6 | only the first "PO-" is removed: a number without one is kept whole, one starting with it loses exactly that prefix; "-index" is appended only for a non-empty index |
| InvoiceGenerator.SelectedIds | src/domains/purchaseOrder/utils/invoiceGeneratorUtils.js:24-26 | an id is selected exactly when its entry is ticked |
| InvoiceGenerator.FindLine | src/domains/purchaseOrder/utils/invoiceGeneratorUtils.js:27-29 | the line found has the id and comes from the list; nothing is found exactly when no line has the id |
| InvoiceGenerator.FindLineFirst | src/domains/purchaseOrder/utils/invoiceGeneratorUtils.js:27-29 | `find` returns the first line with the id |
| InvoiceGenerator.Bill | src/domains/purchaseOrder/utils/invoiceGeneratorUtils.js:30-34 | a derived line keeps every PO field but the quantity, and its amount is quantity times unit price |
| InvoiceGenerator.DeriveLines | src/domains/purchaseOrder/utils/invoiceGeneratorUtils.js:24-35 | the derived lines exist exactly when every selected id has a PO line; line i bills id i at its entered quantity, 0 when none |
| InvoiceGenerator.SumAmountsAppend | src/domains/purchaseOrder/utils/invoiceGeneratorUtils.js:38 | the total is additive over concatenated line lists |
| InvoiceGenerator.GenerateInvoiceFromPO | src/domains/purchaseOrder/utils/invoiceGeneratorUtils.js:9-66 | the invoice exists exactly when every ticked id has a line (the source throws otherwise); its lines are the derived lines and its total their sum |
| InvoiceGenerator.InvoiceHeaderFromPO | src/domains/purchaseOrder/utils/invoiceGeneratorUtils.js:41-65 | status "draft", the placeholder client, PO number, match type and vendor copied, number from generateInvoiceNumber, dates from the clock |
| InvoiceGenerator.InvoiceFromPOExists | src/domains/purchaseOrder/utils/invoiceGeneratorUtils.js:24-35 | when every ticked id has a PO line the invoice is generated |
| InvoiceGenerator.DeriveLinesPriced | src/domains/purchaseOrder/utils/invoiceGeneratorUtils.js:30-38 | one line per id in order, quantity = entered or 0, amount = quantity × unit price; no ids give total 0 |
| InvoiceGenerator.GroupSelection | src/domains/purchaseOrder/utils/invoiceGeneratorUtils.js:85-88 | the group's selection object ticks exactly the group's ids, in order |
| InvoiceGenerator.GroupQuantities | src/domains/purchaseOrder/utils/invoiceGeneratorUtils.js:86-89 | each group id with a quantity q gets ceil(q / k) |
| InvoiceGenerator.GroupObjects | src/domains/purchaseOrder/utils/invoiceGeneratorUtils.js:85-90 | the forEach builds exactly the group's selection and quantity objects |
| InvoiceGenerator.GroupShare | src/domains/purchaseOrder/utils/invoiceGeneratorUtils.js:89 | k shares cover the entered quantity; no entered quantity bills 0 |
| InvoiceGenerator.GroupInvoiceFacts | src/domains/purchaseOrder/utils/invoiceGeneratorUtils.js:92-99 | a group's invoice exists iff its ids have lines, bills the group's ids in order at their shares, and carries the two-digit index |
| InvoiceGenerator.GenerateMultipleInvoices | src/domains/purchaseOrder/utils/invoiceGeneratorUtils.js:68-104 | fails iff a ticked id has no line; otherwise k = min(3, ceil(n/2)) invoices whose ids concatenate to the ticked ids in order, none empty, invoice i numbered with pad2(i+1), every quantity ceil(q/k) |
| InvoiceGenerator.SplitNumbersDistinct | src/domains/purchaseOrder/utils/invoiceGeneratorUtils.js:92-99 | the invoices of one split carry pairwise different numbers |
| InvoiceGenerator.IndexedNumbersDistinct | src/domains/purchaseOrder/utils/invoiceGeneratorUtils.js:6 | different two-digit indexes give different invoice numbers |
| InvoiceGenerator.QuantityErrors | src/domains/purchaseOrder/utils/invoiceGeneratorUtils.js:118-125 | every message is the quantity message; none exactly when no ticked entry has a missing or non-positive quantity |
| InvoiceGenerator.ValidateInvoiceGeneration | src/domains/purchaseOrder/utils/invoiceGeneratorUtils.js:106-128 | the loop collects the no-selection message first, then one quantity message per offending entry in entry order |
| InvoiceGenerator.ValidationErrorsIff | src/domains/purchaseOrder/utils/invoiceGeneratorUtils.js:106-128 | no errors iff something is ticked and every ticked entry has a quantity > 0; with nothing ticked the first message says so |
| InvoiceGenerator.QuantityErrorsCount | src/domains/purchaseOrder/utils/invoiceGeneratorUtils.js:118-125 | exactly one quantity message per offending entry |
| Split.GroupCount | src/domains/purchaseOrder/utils/invoiceGeneratorUtils.js:75 | min(3, ceil(n/2)) by cases: 0 for none, 1 up to 2, 2 up to 4, else 3 |
| Split.DeliveryCount | src/domains/purchaseOrder/utils/downloadUtils.js:78-81 | min(3, max(1, ceil(n/2))) is between 1 and 3 and agrees with the other split for n > 0 |
| Split.SlicesPartition | src/domains/purchaseOrder/utils/invoiceGeneratorUtils.js:79-82 | the slices [floor(n·i/k), floor(n·(i+1)/k)) concatenate to the whole list |
| Split.SlicesNonEmpty | src/domains/purchaseOrder/utils/invoiceGeneratorUtils.js:79-82 | with k ≤ n every slice holds at least one item |
| Split.GroupCountAtMostItems | src/domains/purchaseOrder/utils/invoiceGeneratorUtils.js:75 | there are never more groups than items |
| Split.Share | src/domains/purchaseOrder/utils/invoiceGeneratorUtils.js:89 | k × ceil(q/k) ≥ q; a positive q gives at least 1, a non-positive one at most 0 |
| Split.ShareAtMostWhole | src/domains/purchaseOrder/utils/invoiceGeneratorUtils.js:89 | for a whole q ≥ 0, ceil(q/k) ≤ q |
| Split.ShareOfFractionExceeds | src/domains/purchaseOrder/utils/invoiceGeneratorUtils.js:89 | for a fractional q it can exceed q: ceil(0.5/2) = 1 |
| DownloadUtils.InvoiceFromPO | src/domains/purchaseOrder/utils/downloadUtils.js:37-39 | the invoice carries exactly the number it was given, with no "PO-" stripping |
| DownloadUtils.InvoiceFromPOFacts | src/domains/purchaseOrder/utils/downloadUtils.js:37-73 | lines map one to one in order with rate = unit price and amount = quantity × rate; the dates come from the stamp; vendor name, address and email become the issuer's, phone ""; remittance "Net 30" and otherwise empty; USD |
| DownloadUtils.PartialNumber | src/domains/purchaseOrder/utils/downloadUtils.js:92-95 | the number starts with "INV-" + the whole PO number + "-" (no "PO-" stripping) |
| DownloadUtils.Requantify | src/domains/purchaseOrder/utils/downloadUtils.js:87-90 | every item mapped, in order, to its split-quantity copy |
| DownloadUtils.GeneratePartialInvoices | src/domains/purchaseOrder/utils/downloadUtils.js:76-100 | the loop yields min(3, max(1, ceil(n/2))) invoices, invoice i holding slice i with split quantities and numbered with pad2(i+1) |
| DownloadUtils.RequantifyAppend | src/domains/purchaseOrder/utils/downloadUtils.js:87-90 | splitting quantities distributes over concatenation |
| DownloadUtils.PartialInvoicesPartition | src/domains/purchaseOrder/utils/downloadUtils.js:84-90 | the partial invoices' items, concatenated, are every line once, in order, with its quantity split |
| DownloadUtils.PartialInvoicesShape | src/domains/purchaseOrder/utils/downloadUtils.js:78-87 | 1 ≤ k ≤ 3; no lines still give one invoice with no items; otherwise no invoice is empty |
| DownloadUtils.SplitQuantityKeepsFields | src/domains/purchaseOrder/utils/downloadUtils.js:87-90 | a split item keeps every field but quantity, which becomes ceil(q/k) |
| DownloadUtils.PartialNumbersDistinct | src/domains/purchaseOrder/utils/downloadUtils.js:92-95 | different deliveries get different numbers |
| DownloadUtils.GeneratePOBundle | src/domains/purchaseOrder/utils/downloadUtils.js:103-131 | a failed PO render aborts the bundle; otherwise "PO-{n}.pdf" first, then, unless the status is "draft", one "Invoice-{number}.json" per partial invoice in order |
| DownloadUtils.AddInvoiceEntries | src/domains/purchaseOrder/utils/downloadUtils.js:114-121 | the entries already in the zip are kept, followed by one "Invoice-{number}.json" entry per invoice, in the invoices' order |
| DownloadUtils.BundleNamesDistinct | src/domains/purchaseOrder/utils/downloadUtils.js:109-120 | no two bundle entries share a name |
| DownloadButtons.ValidateInvoiceData | src/components/DownloadButtons.jsx:10-20 | passes iff date and due date are non-empty; a missing date is reported before a missing due date |
| DownloadButtons.GenerateMonthlyInvoiceData | src/components/DownloadButtons.jsx:22-48 | null iff the base date does not read; otherwise date moved by the offset in months with rollover, due date 30 days later, number suffixed "-MM", every other field copied |
| DownloadButtons.MonthlyRollover | src/components/DownloadButtons.jsx:25-29 | 2024-01-31 plus one month is 2024-03-02 (2023: 03-03); month overflow carries into the year |
| DownloadButtons.MonthlyNumbersDistinct | src/components/DownloadButtons.jsx:40 | different offsets give different numbers and file names |
| DownloadButtons.DownloadPdf | src/components/DownloadButtons.jsx:112-145 | invalid data is refused before rendering, a missing render is a failure, otherwise the file is "{invoiceNumber}.pdf" |
| DownloadButtons.MonthlyData | src/components/DownloadButtons.jsx:172-173 | the annual run looks at exactly twelve offsets |
| DownloadButtons.RenderedOffsets | src/components/DownloadButtons.jsx:172-184 | the months that yield a file, ascending, each below the bound |
| DownloadButtons.RenderedOffsetsComplete | src/components/DownloadButtons.jsx:174-183 | no month that yields a file is skipped |
| DownloadButtons.AnnualFiles | src/components/DownloadButtons.jsx:172-184 | one archive file per month that yields a file, in month order |
| DownloadButtons.AnnualFileNames | src/components/DownloadButtons.jsx:181 | each file is named "{number}-MM.pdf" for its month, and no two share a name |
| DownloadButtons.AllRendered | src/components/DownloadButtons.jsx:180-183 | when every month renders, every month is archived |
| DownloadButtons.NoneRendered | src/components/DownloadButtons.jsx:174-183 | when no month renders, the archive is empty |
| DownloadButtons.AnnualFilesCount | src/components/DownloadButtons.jsx:172-184 | a readable date and a renderer that always succeeds give 12 files; an unreadable date gives none |
| DownloadButtons.AnnualInvoices | src/components/DownloadButtons.jsx:147-193 | invalid data is refused; otherwise the archive holds exactly the rendered months, successCount is their number, and the original invoice data is restored |
| Calendar.Normalize | src/components/DownloadButtons.jsx:25-29 | `new Date(y, m, d)` day arithmetic always yields a valid date, never clamping |
| Calendar.NormalizeSucc | src/components/DownloadButtons.jsx:31-32 | one more day of offset is exactly one calendar day later |
| Calendar.AddDaysIsNthNextDay | src/components/DownloadButtons.jsx:31-32 | `setDate(getDate() + n)` is n calendar days later |
| Calendar.MakeDateRollsOver | src/components/DownloadButtons.jsx:25-29 | month arithmetic keeps the day when the month has it, and otherwise rolls the excess into the next month |
| Calendar.ParseIso | src/components/DownloadButtons.jsx:24 | a date read from text is a valid date with a four-digit year |
| Calendar.ParseFormatRoundTrip | src/components/DownloadButtons.jsx:24-35 | formatting a date and reading it back gives the date, and the text has the YYYY-MM-DD shape |
| Calendar.FormatParseRoundTrip | src/components/DownloadButtons.jsx:24-35 | every text that reads as a date is that date's canonical text |
| Calendar.StampOn | src/domains/purchaseOrder/utils/invoiceGeneratorUtils.js:47-50 | an invoice made today is dated today and due 30 calendar days later |
| InvoiceLedger.InitialInvoiceData | src/hooks/useInvoiceForm.js:6-36 | the new invoice has no number, today's dates and every party and remittance field empty |
| InvoiceLedger.RemoveLine | src/hooks/useInvoiceForm.js:140-142 | the remaining lines are exactly those without the id |
| InvoiceLedger.RemoveLineAppend | src/hooks/useInvoiceForm.js:141 | removal works piece by piece, so the kept lines keep their order |
| InvoiceLedger.RemoveAbsentLine | src/hooks/useInvoiceForm.js:141 | removing an absent id leaves the ledger equal |
| InvoiceLedger.ApplyEdit | src/hooks/useInvoiceForm.js:147-152 | only the named field changes; amount = quantity × rate only after a quantity or rate edit |
| InvoiceLedger.UpdateLine | src/hooks/useInvoiceForm.js:144-157 | same length; lines with the id are edited in place, the others kept |
| InvoiceLedger.LedgerKeepsAmounts | src/hooks/useInvoiceForm.js:127-157 | add, remove and quantity, rate or description edits keep every amount = quantity × rate |
| InvoiceLedger.RemoveKeepsAmounts | src/hooks/useInvoiceForm.js:140-142 | removal keeps consistent amounts consistent |
| InvoiceLedger.UpdateKeepsAmounts | src/hooks/useInvoiceForm.js:144-157 | an update other than of the amount keeps consistent amounts consistent |
| InvoiceLedger.DescriptionKeepsStaleAmount | src/hooks/useInvoiceForm.js:149-151 | a description edit leaves a stale amount stale; a quantity edit repairs it |
| InvoiceLedger.PersistedTax | src/hooks/useInvoiceForm.js:120-123 | an empty tax value is stored as 0, anything else unchanged; the tax it computes is the same |
| InvoiceLedger.InvoiceFormState.constructor | src/hooks/useInvoiceForm.js:6-53 | the initial invoice, one line {1, "", 1, 0, 0}, no logo, percentage tax with an empty value |
| InvoiceLedger.InvoiceFormState.Persisted | src/hooks/useInvoiceForm.js:115-125 | the snapshot holds the state, with the stored tax settings |
| InvoiceLedger.InvoiceFormState.Load | src/hooks/useInvoiceForm.js:56-66 | stored data replaces invoice, lines and logo; stored tax settings replace the default only when present |
| InvoiceLedger.InvoiceFormState.SetInvoiceData | src/hooks/useInvoiceForm.js:159-161 | replaces the invoice data only |
| InvoiceLedger.InvoiceFormState.SetLineItems | src/hooks/useInvoiceForm.js:162-163 | replaces the line items only |
| InvoiceLedger.InvoiceFormState.SetTaxSettings | src/hooks/useInvoiceForm.js:169-170 | replaces the tax settings only |
| InvoiceLedger.InvoiceFormState.SetLogo | src/hooks/useInvoiceForm.js:167-168 | replaces the logo only |
| InvoiceLedger.InvoiceFormState.AddLineItem | src/hooks/useInvoiceForm.js:127-138 | appends one blank line under the fresh id; the old lines and the other fields are unchanged |
| InvoiceLedger.InvoiceFormState.RemoveLineItem | src/hooks/useInvoiceForm.js:140-142 | the ledger becomes RemoveLine of the old one; the other fields are unchanged |
| InvoiceLedger.InvoiceFormState.UpdateLineItem | src/hooks/useInvoiceForm.js:144-157 | the ledger becomes UpdateLine of the old one; the other fields are unchanged |
| InvoiceLedger.PersistRoundTrip | src/hooks/useInvoiceForm.js:56-66 | loading the persisted snapshot restores invoice, lines and logo, and tax settings that compute the same tax |
| POGeneration.InitialPurchaseOrder | src/domains/purchaseOrder/components/POGeneration.jsx:11-28 | a blank draft for 2-way matching dated today, with one line {1, "", 1, 0, 0} |
| POGeneration.RemovePOLine | src/domains/purchaseOrder/components/POGeneration.jsx:85-90 | the remaining lines are exactly those without the id |
| POGeneration.RemovePOLineAppend | src/domains/purchaseOrder/components/POGeneration.jsx:88 | removal works piece by piece, so the kept lines keep their order |
| POGeneration.RemoveAbsentPOLine | src/domains/purchaseOrder/components/POGeneration.jsx:88 | removing an absent id leaves the lines equal |
| POGeneration.ApplyPOEdit | src/domains/purchaseOrder/components/POGeneration.jsx:96-101 | only the named field changes; totalPrice = quantity × unitPrice only after a quantity or unit-price edit |
| POGeneration.UpdatePOLine | src/domains/purchaseOrder/components/POGeneration.jsx:95-104 | same length; lines with the id edited in place, the others returned unchanged |
| POGeneration.LinesKeepTotals | src/domains/purchaseOrder/components/POGeneration.jsx:71-106 | add, remove and every edit keep each totalPrice = quantity × unitPrice |
| POGeneration.RemoveKeepsTotals | src/domains/purchaseOrder/components/POGeneration.jsx:85-90 | removal keeps consistent totals consistent |
| POGeneration.OrderValueAppend | src/domains/purchaseOrder/components/POForm.jsx:205 | an order's value is additive over concatenated lines |
| POGeneration.AddKeepsOrderValue | src/domains/purchaseOrder/components/POGeneration.jsx:71-83 | adding a blank line leaves the order value unchanged |
| POGeneration.DescriptionKeepsOrderValue | src/domains/purchaseOrder/components/POGeneration.jsx:92-106 | a description edit leaves the order value unchanged |
| POGeneration.RemoveSplitsOrderValue | src/domains/purchaseOrder/components/POGeneration.jsx:85-90 | removal takes off exactly the value of the removed lines |
| POGeneration.KeptOnly | src/domains/purchaseOrder/components/POGeneration.jsx:88 | the lines removal drops are exactly those with the id |
| POGeneration.POGenerationState.constructor | src/domains/purchaseOrder/components/POGeneration.jsx:11-28 | the screen starts with the initial purchase order |
| POGeneration.POGenerationState.AddLineItem | src/domains/purchaseOrder/components/POGeneration.jsx:71-83 | appends a blank line; every other PO field unchanged |
| POGeneration.POGenerationState.RemoveLineItem | src/domains/purchaseOrder/components/POGeneration.jsx:85-90 | filters the lines by id; every other PO field unchanged |
| POGeneration.POGenerationState.UpdateLineItem | src/domains/purchaseOrder/components/POGeneration.jsx:92-106 | edits the lines with the id; every other PO field unchanged |
| POInvoiceGeneration.InitialQuantities | src/domains/purchaseOrder/components/POInvoiceGeneration.jsx:20-26 | a key per line id, nothing else; a repeated id keeps its last quantity |
| POInvoiceGeneration.InitialQuantitiesOrdered | src/domains/purchaseOrder/components/POInvoiceGeneration.jsx:22-24 | with distinct ids every line starts at its ordered quantity |
| POInvoiceGeneration.ToggleSelection | src/domains/purchaseOrder/components/POInvoiceGeneration.jsx:28-33 | the id's flag is negated (missing counts as false), every other entry unchanged, keys stay distinct |
| POInvoiceGeneration.ToggleTwice | src/domains/purchaseOrder/components/POInvoiceGeneration.jsx:28-33 | ticking twice restores every flag |
| POInvoiceGeneration.ClampQuantity | src/domains/purchaseOrder/components/POInvoiceGeneration.jsx:35-45 | the stored value lies in [0, ordered], an unknown id stores 0, an in-range whole number is kept |
| POInvoiceGeneration.SelectAllSelection | src/domains/purchaseOrder/components/POInvoiceGeneration.jsx:158-165 | every line id gets the same flag, in line order |
| POInvoiceGeneration.SelectedTotal | src/domains/purchaseOrder/components/POInvoiceGeneration.jsx:47-49 | NaN iff some ticked line has no quantity; its value is tied to the generated invoice by ShownTotalIsInvoiceTotal |
| POInvoiceGeneration.SelectedTotalDefined | src/domains/purchaseOrder/components/POInvoiceGeneration.jsx:20-26 | after the quantities are initialised the total is a number; nothing ticked totals 0 |
| POInvoiceGeneration.NothingTickedTotalsZero | src/domains/purchaseOrder/components/POInvoiceGeneration.jsx:240 | with no line ticked the total is 0 |
| POInvoiceGeneration.TickedLineIds | src/domains/purchaseOrder/components/POInvoiceGeneration.jsx:240 | the filter keeps the id of every ticked line and nothing else, each kept id has a line, and with distinct line ids no id is kept twice |
| POInvoiceGeneration.FlagIff | src/domains/purchaseOrder/components/POInvoiceGeneration.jsx:28-33 | with distinct keys, an id reads as ticked iff its entry carries true |
| POInvoiceGeneration.SelectedIdsNoRepeats | src/domains/purchaseOrder/utils/invoiceGeneratorUtils.js:71-73 | with distinct keys, no ticked id is listed twice |
| POInvoiceGeneration.ShownTotalOfPrefix | src/domains/purchaseOrder/components/POInvoiceGeneration.jsx:47-49 | the total over the first k lines is the sum of quantity × unit price over their ticked ids, in line order |
| POInvoiceGeneration.DerivedTotal | src/domains/purchaseOrder/utils/invoiceGeneratorUtils.js:38 | the invoice's `reduce` over its derived lines is the sum of quantity × unit price over the ticked ids, in entry order |
| POInvoiceGeneration.IdsTotalReordered | src/domains/purchaseOrder/utils/invoiceGeneratorUtils.js:38 | two repeat-free lists of the same ids give the same sum, whatever their order |
| POInvoiceGeneration.ShownTotalIsInvoiceTotal | src/domains/purchaseOrder/components/POInvoiceGeneration.jsx:240 | with distinct line ids and every ticked id having a line and a quantity, the total shown under the table equals the total of the single invoice generated from the same state |
| POInvoiceGeneration.Indices | src/domains/purchaseOrder/components/POInvoiceGeneration.jsx:79 | the keys of the lines array are 0..n-1 |
| POInvoiceGeneration.MisroutedGroup | src/domains/purchaseOrder/utils/invoiceGeneratorUtils.js:85-99 | a group of positions as the page's call runs it: fails iff some position is a ticked id, else an empty invoice without index |
| POInvoiceGeneration.MisroutedGroups | src/domains/purchaseOrder/utils/invoiceGeneratorUtils.js:79-101 | all groups as the page's call runs them; every invoice shares the unindexed number |
| POInvoiceGeneration.SplitAsWritten | src/domains/purchaseOrder/components/POInvoiceGeneration.jsx:79 | the page's four-argument call: fails iff a ticked id equals a line position; else min(3, ceil(n/2)) empty invoices under one number |
| POInvoiceGeneration.GroupsCoverPositions | src/domains/purchaseOrder/utils/invoiceGeneratorUtils.js:79-82 | the groups of positions hold exactly 0..n-1 |
| POInvoiceGeneration.SplitAsWrittenDropsLines | src/domains/purchaseOrder/components/POInvoiceGeneration.jsx:79 | with three lines and no ticked position, several empty invoices share one number |
| POInvoiceGeneration.SplitAsWrittenFailsOnInitialLine | src/domains/purchaseOrder/components/POInvoiceGeneration.jsx:79 | ticking the initial line (id 1) with a second line present makes the split fail |
| POInvoiceGeneration.POInvoicePage.constructor | src/domains/purchaseOrder/components/POInvoiceGeneration.jsx:13-17 | single strategy, nothing ticked, no quantities, preview closed |
| POInvoiceGeneration.POInvoicePage.InitQuantities | src/domains/purchaseOrder/components/POInvoiceGeneration.jsx:20-26 | the loop sets the quantities to InitialQuantities of the lines |
| POInvoiceGeneration.POInvoicePage.ItemSelect | src/domains/purchaseOrder/components/POInvoiceGeneration.jsx:28-33 | the selection becomes ToggleSelection of the old one |
| POInvoiceGeneration.POInvoicePage.QuantityChange | src/domains/purchaseOrder/components/POInvoiceGeneration.jsx:35-45 | the id's quantity becomes the clamped value, others unchanged |
| POInvoiceGeneration.POInvoicePage.ToggleSelectAll | src/domains/purchaseOrder/components/POInvoiceGeneration.jsx:157-165 | "all selected" iff as many keys as lines; afterwards every line carries its negation |
| POInvoiceGeneration.POInvoicePage.GenerateInvoices | src/domains/purchaseOrder/components/POInvoiceGeneration.jsx:51-89 | applies HandleGenerate's outcome; with every ticked id found, "multiple" shows an exact split of the ticked ids: in entry order, no invoice empty, invoice i numbered pad2(i+1), every quantity ceil(q/k) |
| POInvoiceGeneration.POInvoicePage.Show | src/domains/purchaseOrder/components/POInvoiceGeneration.jsx:63-88 | a rejection or a failure sets its toast and nothing else; generated invoices are stored and the preview opens |
| POInvoiceGeneration.HandleGenerate | src/domains/purchaseOrder/components/POInvoiceGeneration.jsx:61-89 | validation errors show the first and generate nothing; else single gives exactly one invoice; multiple, with every ticked id found, gives at least one invoice and an exact split of the ticked ids (entry order, none empty, numbered pad2(i+1), quantities ceil(q/k)); a throw gives the failure toast |
| POInvoiceGeneration.TickedIdsNonEmpty | src/domains/purchaseOrder/utils/invoiceGeneratorUtils.js:110-113 | something ticked means at least one selected id |
| InvoiceForm.HandleInputChange | src/components/InvoiceForm.jsx:21-37 | with a section only invoiceData[section][name] changes, without one only invoiceData[name] |
| InvoiceForm.InputChangesCommute | src/components/InvoiceForm.jsx:21-37 | edits of two different inputs give the same invoice in either order |
| InvoiceForm.ToggledTaxType | src/components/InvoiceForm.jsx:258 | the toggle always switches to the other type |
| InvoiceForm.HandleTaxTypeChange | src/components/InvoiceForm.jsx:39-45 | sets the type and always clears the value |
| InvoiceForm.TaxToggleTwice | src/components/InvoiceForm.jsx:258 | two toggles return to the original type with the value cleared |
| InvoiceForm.TaxPatternIff | src/components/InvoiceForm.jsx:272 | `^\d*\.?\d*$` accepts exactly texts of digits with at most one dot |
| InvoiceForm.AcceptedTaxInput | src/components/InvoiceForm.jsx:269-274 | an accepted non-empty text is stored as a non-negative number, except "." which gives NaN |
| InvoiceForm.Subtotal | src/components/InvoiceForm.jsx:61-63 | the empty ledger has subtotal 0 |
| InvoiceForm.SubtotalAppend | src/components/InvoiceForm.jsx:61-63 | the subtotal is additive over concatenated ledgers |
| InvoiceForm.SubtotalOfSamePrices | src/components/InvoiceForm.jsx:61-63 | the subtotal depends only on quantities and rates, not stored amounts |
| InvoiceForm.SubtotalUnderLedgerEdits | src/components/InvoiceForm.jsx:61-63 | a blank new line, a description edit or an amount edit leave the subtotal unchanged |
| InvoiceForm.TaxFacts | src/components/InvoiceForm.jsx:65-73 | a cleared value gives tax 0; a fixed tax ignores the subtotal; a percentage tax grows with it |
| InvoiceForm.Total | src/components/InvoiceForm.jsx:292 | with an empty value the total is the subtotal; a fixed tax adds its value |
| InvoiceForm.HandleCurrencyChange | src/components/InvoiceForm.jsx:54-59 | the currency becomes the table entry for the code, the rest unchanged |
| InvoicePreview.PreviewTotals | src/domains/invoice/components/InvoicePreview.jsx:55-67 | the preview's subtotal, tax and total equal the editor's; default settings give tax 0 and total = subtotal |
| InvoicePreview.RowsSumToSubtotal | src/domains/invoice/components/InvoicePreview.jsx:182 | the rows' fresh amounts sum to the subtotal whatever amounts are stored |
| InvoicePreview.RowsMatchConsistentAmounts | src/domains/invoice/components/InvoicePreview.jsx:182 | rows match stored amounts iff the amounts are consistent |
| InvoicePreview.TaxLabelRate | src/domains/invoice/components/InvoicePreview.jsx:199-200 | "(v%)" shows iff the type is percentage and v is truthy |
| InvoicePreview.NonEmptyKeys | src/domains/invoice/components/InvoicePreview.jsx:219-261 | exactly the listed fields that are non-empty |
| InvoicePreview.ShownRemittance | src/domains/invoice/components/InvoicePreview.jsx:214-261 | nothing without a bank name, whatever else is filled; otherwise exactly the non-empty fields, bank name first |
| InvoicePreview.NonEmptyKeysPrefix | src/domains/invoice/components/InvoicePreview.jsx:219-261 | the shown rows keep the layout order |
| POForm.HandleInputChange | src/domains/purchaseOrder/components/POForm.jsx:12-28 | with a section only poData[section][name] changes, without one only poData[name]; lines unchanged |
| POForm.SameInputIsNoChange | src/domains/purchaseOrder/components/POForm.jsx:12-28 | typing the value already there changes nothing readable |
| POForm.CoerceWholeNumber | src/domains/purchaseOrder/components/POForm.jsx:164 | a whole number's text is stored as that number |
| POForm.CoerceNonNumber | src/domains/purchaseOrder/components/POForm.jsx:164 | empty or non-numeric text is stored as 0 |
| POForm.MatchTypeText | src/domains/purchaseOrder/components/POForm.jsx:93-95 | the 2-way text iff the type is "2-way", the 3-way text for any other value |
| POPreview.CalculateTotalMatchesStored | src/domains/purchaseOrder/components/POPreview.jsx:6-8 | Σ quantity × unitPrice equals the sum of consistent stored totals |
| POPreview.StatusText | src/domains/purchaseOrder/components/POPreview.jsx:23 | same length, no lower-case letter left, other characters unchanged |
| POPreview.Terms | src/domains/purchaseOrder/components/POPreview.jsx:82-92 | the three fixed clauses always; the 3-way clause iff "3-way", the 2-way clause iff "2-way", never both |
| Format.FormatDate | src/domains/shared/utils/format.js:9-22 | a falsy input gives ""; a YYYY-MM-DD string is returned unchanged; exactly those two take the early returns |
| Format.FormatDateIdempotent | src/domains/shared/utils/format.js:13-15 | on the returned path formatDate(formatDate(s)) = formatDate(s) |
| Format.ShapeOnlyCheck | src/domains/shared/utils/format.js:13 | "2024-13-45" is returned unchanged though it is no date |
| Format.FormatDateOfIsoDate | src/domains/shared/utils/format.js:13-15 | a date's own canonical text comes back unchanged |
| LogoUtils.StripSpecials | src/utils/logoUtils.js:7 | only `[\w\s-]` characters are kept, all of them, in order |
| LogoUtils.CollapseSpaces | src/utils/logoUtils.js:8 | no whitespace is left and no two dots are adjacent |
| LogoUtils.TrimTrailingDots | src/utils/logoUtils.js:9 | a prefix without a trailing dot; only dots are removed |
| LogoUtils.LogoFilename | src/utils/logoUtils.js:4-10 | only a-z, 0-9, "_", "-" and "."; no whitespace; no trailing dot; no two adjacent dots |
| LogoUtils.FilenameKeepsNameCore | src/utils/logoUtils.js:4-10 | without its dots the file name is exactly the word characters and hyphens of the lower-cased name |
| LogoUtils.StripKeepsCore | src/utils/logoUtils.js:7 | stripping keeps every word character and hyphen |
| LogoUtils.LeadingSpaceGivesDot | src/utils/logoUtils.js:8 | a name starting with whitespace gives a file name starting with "." |
| FetchCompanyLogos.StripSuffix | src/domains/invoice/utils/fetchCompanyLogos.js:42-44 | a suffix is removed exactly when it ends the string |
| FetchCompanyLogos.DomainFromName | src/domains/invoice/utils/fetchCompanyLogos.js:23-50 | always ends with ".com", the part before it only [a-z0-9_-] |
| FetchCompanyLogos.GetDomainFromName | src/domains/invoice/utils/fetchCompanyLogos.js:23-50 | the forEach over the suffixes computes DomainFromName |
| FetchCompanyLogos.DomainStem | src/domains/invoice/utils/fetchCompanyLogos.js:42-49 | the domain is the word characters and hyphens of the lower-cased, suffix-stripped name, plus ".com" |
| FetchCompanyLogos.DomainMatchesLogoFilename | src/domains/invoice/utils/fetchCompanyLogos.js:42-49 | the domain stem is the logo file name of the stripped name without its dots |
| FetchCompanyLogos.SuffixOrder | src/domains/invoice/utils/fetchCompanyLogos.js:25-44 | suffixes are stripped in list order, so "Acme CorpInc" loses only "Inc" |
| FetchCompanyLogos.SuffixMatching | src/domains/invoice/utils/fetchCompanyLogos.js:42-44 | matching is case-sensitive and needs no word boundary |
| FetchCompanyLogos.FindLogo | src/domains/invoice/utils/fetchCompanyLogos.js:57-64 | the first matching entry from a position, or none |
| FetchCompanyLogos.ChosenEntry | src/domains/invoice/utils/fetchCompanyLogos.js:57-64 | the first light-theme logo entry, else the first logo entry, else none |
| FetchCompanyLogos.PngFormats | src/domains/invoice/utils/fetchCompanyLogos.js:69 | exactly the png formats, in order |
| FetchCompanyLogos.SortByWidth | src/domains/invoice/utils/fetchCompanyLogos.js:71-76 | the sort is a permutation |
| FetchCompanyLogos.SortedHeadIsFirstWidest | src/domains/invoice/utils/fetchCompanyLogos.js:71-76 | the head after the descending stable sort is the earliest format of greatest width |
| FetchCompanyLogos.ExtractLogoUrl | src/domains/invoice/utils/fetchCompanyLogos.js:53-82 | null with no logos, no logo entry, no formats or no png; otherwise the earliest widest png, with format "png" |
| FetchCompanyLogos.NoLogoEntry | src/domains/invoice/utils/fetchCompanyLogos.js:61-66 | without an entry of type "logo" the result is null |
| FetchCompanyLogos.FetchedRecord | src/domains/invoice/utils/fetchCompanyLogos.js:117-127 | the saved file name is the domain plus ".png" |
| FetchCompanyLogos.MappingKeys | src/domains/invoice/utils/fetchCompanyLogos.js:158-164 | the mapping's keys are exactly the successful companies |
| FetchCompanyLogos.MappingLastWins | src/domains/invoice/utils/fetchCompanyLogos.js:158-164 | each company maps to the file of its last successful fetch: a later duplicate overwrites an earlier one |
| FetchCompanyLogos.BuildMapping | src/domains/invoice/utils/fetchCompanyLogos.js:158-164 | the reduce computes the mapping |
| CompanyLogos.CharCode | src/utils/generateCompanyLogos.js:6 | charCodeAt(0) is a UTF-16 unit, the code point itself below U+10000 |
| CompanyLogos.ShiftLeft5 | src/utils/generateCompanyLogos.js:6 | `acc << 5` is a signed 32-bit value congruent to 32·acc |
| CompanyLogos.HashBound | src/utils/generateCompanyLogos.js:5-8 | each character moves the hash by less than 2^31 + 2^16 |
| CompanyLogos.HashExact | src/utils/generateCompanyLogos.js:5-8 | for names up to 2^21 characters the hash is below 2^53, so a double holds it exactly |
| CompanyLogos.Colour | src/utils/generateCompanyLogos.js:10-12 | hue in (−360, 360) with the hash's sign; for hash ≥ 0 saturation 60..79 and lightness 45..54; negative hashes fall below those ranges |
| CompanyLogos.SingleCharacterColour | src/utils/generateCompanyLogos.js:5-12 | a one-character name hashes to its code and gets an in-range colour |
| CompanyLogos.SplitWords | src/utils/generateCompanyLogos.js:16 | at least one piece; the last is empty iff the name is empty or ends in whitespace |
| CompanyLogos.WordsHaveNoSpace | src/utils/generateCompanyLogos.js:16 | no piece holds whitespace |
| CompanyLogos.FirstLettersAreWordStarts | src/utils/generateCompanyLogos.js:16-18 | the first letters of the pieces are exactly the word-start characters; empty pieces add nothing |
| CompanyLogos.Initials | src/utils/generateCompanyLogos.js:15-20 | at most two characters |
| CompanyLogos.InitialsAreWordStarts | src/utils/generateCompanyLogos.js:15-20 | the initials are the first two word starts, upper-cased |
| CompanyLogos.GenerateLogoUrl | src/utils/generateCompanyLogos.js:22-40 | fails iff btoa fails; otherwise the data-URL prefix followed by the encoded SVG |
| PaperEffects.Without | src/components/PaperEffects.jsx:240 | the filter keeps exactly the other effects |
| PaperEffects.ToggleEffect | src/components/PaperEffects.jsx:238-242 | the effect's membership flips, the others keep theirs and their relative order |
| PaperEffects.ToggleTwiceAbsent | src/components/PaperEffects.jsx:239-241 | toggling an absent effect twice restores the list |
| PaperEffects.ToggleTwicePresent | src/components/PaperEffects.jsx:239-241 | toggling a present effect twice moves it, once, to the end |
| PaperEffects.ToggleTwiceMovesToEnd | src/components/PaperEffects.jsx:239-241 | [a, b] toggled off and on in a becomes [b, a] |
| PaperEffects.Layers | src/components/PaperEffects.jsx:182-232 | the crumple layers render iff "crumple" is active, the stains iff "stains" is |
| PaperEffects.ToggleFlipsLayers | src/components/PaperEffects.jsx:238-251 | a toggle flips its own layers and checkbox and leaves the other effect's layers alone |
| LogoUpload.AcceptedIffLandscape | src/components/LogoUpload.jsx:37-40 | with a positive height the ratio test accepts iff height ≤ width ≤ 4·height |
| LogoUpload.EmptyImageAccepted | src/components/LogoUpload.jsx:37 | a 0×0 image gives NaN, which passes both comparisons |
| LogoUpload.Upload | src/components/LogoUpload.jsx:28-51 | a missing or non-image file is ignored; a decode failure and a bad ratio are refused with their messages; otherwise the data URL becomes the logo |
| LogoUpload.LogoPicker.constructor | src/components/LogoUpload.jsx:28-30 | starts with the given logo and no error |
| LogoUpload.LogoPicker.HandleLogoUpload | src/components/LogoUpload.jsx:28-51 | the error is cleared first; the logo changes only when accepted, the error is set only when refused |
| LogoUpload.LogoPicker.Remove | src/components/LogoUpload.jsx:70-73 | no logo and no error |
| DemoData.ValidationFailure | src/components/DemoDataButton.jsx:20-44 | passes iff invoiceData, an array of lineItems and taxSettings are present; otherwise the first failing check's message, in the order nothing, invoiceData, lineItems, taxSettings |
| DemoData.LogoNotChecked | src/components/DemoDataButton.jsx:43 | the logo never affects the verdict |
| DemoData.EmptyLinesPass | src/components/DemoDataButton.jsx:33-36 | an empty array passes; a non-array value fails with the lineItems message |
| DemoData.ApplyDemoData | src/components/DemoDataButton.jsx:62-69 | the four setters run, in order, only when validation passes; on failure nothing changes |

## Left out

- Clock readings (`new Date()`, `Date.now()`) are parameters: a `Stamp` of the two dates, a `today` date, or a fresh id. Nothing guarantees that `Date.now()` ids are unique.
- The PDF and PNG renderers, JSZip, object URLs, anchor clicks and the settle delay are left out. A render is an oracle that returns an optional file.
- `btoa` is a parameter. So is image decoding (`validateImage`, `FileReader`), whose result is passed in as optional dimensions.
- localStorage, the logo fetch on company-name change, `getCompanyLogoPath`, and the Brandfetch/fs script body and its network calls are left out. The pure parts of that script are modelled.
- Floating point: money, quantities and rates are exact reals, and `formatCurrency`/`toFixed` are left out. `parseFloat` is modelled on decimal text only; it does not read "Infinity".
- Time zones: dates are UTC. `new Date("YYYY-MM-DD")` is read strictly, so a day the month lacks is invalid rather than rolled over.
- Format.FormatDate: the non-canonical path through `new Date(...).toISOString()` is only marked as reformatted; its text is not modelled.
- JsCore.ToLower and JsCore.ToUpper map ASCII letters only, with no Unicode case mapping.
- CompanyLogos.Initials: `word[0]` of a word starting with a character above U+FFFF yields a lone surrogate. The model takes the whole character.
- CompanyLogos.Colour: the hash is an exact integer. CompanyLogos.HashExact shows that a double holds it exactly only for names of up to 2^21 characters.
- LogoUpload.Upload: the aspect ratio is compared over exact reals, not doubles.
- FetchCompanyLogos.ExtractLogoUrl: the in-place `sort` is modelled as a functional stable sort whose head is used, without the array being updated in place.
- Object entry order is insertion order. Integer-like keys, which JavaScript lists first in ascending order, are not reordered.
- The miswired call sites are not run as written:
  - invoiceGeneratorUtils.js:92-99 omits `lineItems`;
  - POGeneration.jsx:158 passes `setPOData`, while POForm.jsx:6 reads `setPoData`.
  
  Each function is modelled against its own parameters. The page's four-argument split call is modelled separately (see Findings).
- The tax input's onBlur reformat is left out; it stores the same parseFloat value as the change handler. `updateLineItem` is modelled only for the fields the editors edit.
- Toasts, `gtag` and `console` output are left out. So are the zip generation and the catch of the annual run, `handleDownload` types other than "pdf", and the random fold, stain and demo-data generators.
- The demo-data generator is a parameter: its resolved result is passed in.

## Findings

| source | as written | input that shows it | evidently intended | confidence | as-written member | corrected member |
|---|---|---|---|---|---|---|
| src/domains/purchaseOrder/components/POInvoiceGeneration.jsx:79 | `generateMultipleInvoices(poData, lineItems, selectedItems, quantities)` calls a utility whose parameters are `(poData, selectedItems, quantities)`. The lines array is read as the selection and the selection as the quantities. The utility's inner call (invoiceGeneratorUtils.js:92-99) is shifted too, so the group's index lands in `includeIndex`. | Three lines with ids 1, 2, 3, "multiple" strategy, only id 3 ticked with a quantity of at least 1. The result is two invoices with no lines, both numbered "INV-<ref>". Ids 1 and 2 are also positions 1 and 2, so ticking either of them throws instead. | The ticked ids are split into min(3, ceil(n/2)) non-empty invoices numbered -01, -02, … with quantities ceil(q/k). | not executed | POInvoiceGeneration.SplitAsWritten | InvoiceGenerator.GenerateMultipleInvoices |
