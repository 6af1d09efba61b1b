# Rio Claro council scrapers — a Dafny model

Two Node scripts scrape the public portals of the Rio Claro city council.

- `camara_scraper_proposituras.js` walks the pages of the proposals search. For each proposal listed it:
  - opens the proposal's page and renders it to a PDF;
  - downloads every file linked from the page's attachments table;
  - records the proposal with its attachments in `documentos_info.json` and `documentos_info.csv`.
- `camara_legislativo_complemento.js` walks the pages of the legislation search. For each item with both a detail link and a PDF link it:
  - opens the detail page and downloads the page's "export as PDF" file;
  - downloads the item's own PDF;
  - records the item the same way.

Both scripts resume from the stored index. They stop after one page under `--uma-pagina`, and otherwise only when something fails.

The model keeps the sequential logic under the browser calls:

- `sanitizeFileName`;
- the classification of attachment links, and the filters that turn page rows and list items into entries;
- the assembly of records in `processarPagina`, and what each script does when a download fails;
- the resume locator;
- the page loop;
- the CSV flattener, checked against an RFC 4180 reader;
- the final write of the JSON index.

The browser and the network are a `Site` value. It is a set of total functions:

- what each listing page shows (or that loading it fails);
- what each detail page shows (or that opening it fails);
- whether fetching a URL answers OK.

The page loop has no exit of its own except an error. The model therefore walks at most `bound` pages and reports a walk that reaches the bound as `Unfinished`.

Modules:

- `Wrappers`: `Option` and `Result`.
- `Text`: the ECMAScript whitespace class, `trim`, ASCII lowercasing, `includes`, and number-to-text conversion.
- `FileNames`: `sanitizeFileName` and `path.join`.
- `Lists`: the filter-and-transform shape of both row filters.
- `Csv`: the quoting used by both scripts, and an RFC 4180 reader.
- `Dom`: anchors.
- `Walker`: the resume locator and the page loop, shared by both scripts.
- `Pages`: the document loop of `processarPagina`, shared by both scripts. Each document yields its record or fails, and the first failure ends the page.
- `Proposituras` and `Complemento`: one module per script.

Where a comment and the code disagree, the model follows the code. Both scripts comment the resume assignment as starting "from the next page", but they assign the last stored page itself. That page is therefore processed again. `Complemento.ResumeRevisitsLastPage` shows that its records then appear twice in the index.

## Model

| member | source | states |
|---|---|---|
| FileNames.Sanitize | camara_scraper_proposituras.js:26-28 | the result holds no whitespace and none of `< > : " / \ \| ? *`, and is no longer than the input |
| FileNames.SanitizeIdempotent | camara_legislativo_complemento.js:28-30 | sanitising a sanitised name changes nothing |
| FileNames.SanitizeRun | camara_scraper_proposituras.js:27 | a maximal run of whitespace becomes exactly one `_` |
| FileNames.SanitizeNoSpace | camara_scraper_proposituras.js:27 | without whitespace, each unsafe character becomes one `_`, every other character is kept in place, and the length is unchanged |
| FileNames.SanitizeAppend | camara_legislativo_complemento.js:29 | sanitising distributes over a concatenation whose cut does not split a run of whitespace |
| FileNames.CollapseSpaces | camara_scraper_proposituras.js:27 | the `\s+` replacement never lengthens the text |
| FileNames.CollapseSpacesClean | camara_scraper_proposituras.js:27 | the `\s+` replacement leaves no whitespace |
| FileNames.CollapseSpacesAppend | camara_scraper_proposituras.js:27 | the `\s+` replacement distributes over a concatenation whose cut does not split a run of whitespace |
| FileNames.CollapseSpacesNoSpace | camara_scraper_proposituras.js:27 | the `\s+` replacement leaves text without whitespace unchanged |
| FileNames.ReplaceUnsafeSafe | camara_scraper_proposituras.js:27 | the unsafe-character replacement leaves text without unsafe characters unchanged |
| FileNames.SafeNameAppend | camara_scraper_proposituras.js:117 | names built by joining safe parts are safe |
| FileNames.JoinNoQuote | camara_scraper_proposituras.js:88 | a folder path without quotes joined with a sanitised name has no quote |
| Text.Trim | camara_legislativo_complemento.js:49 | `trim` removes exactly the leading and trailing whitespace: the result is the part of the input between them, and empty only on all-whitespace input |
| Text.ContainsIff | camara_scraper_proposituras.js:51 | `includes` holds exactly when the pattern occurs at some position |
| Text.IntToString | camara_scraper_proposituras.js:218 | a page number is written as a non-empty run of digits and minus signs, which never needs quoting |
| Text.NatToStringRoundTrip | camara_scraper_proposituras.js:218 | a non-negative page number written to the CSV reads back as the same number |
| Text.IntToStringRoundTrip | camara_scraper_proposituras.js:218 | any page number written to the CSV reads back: a non-negative one as its digits, a negative one as a minus sign followed by the digits of its absolute value |
| Lists.FilterMapKept | camara_scraper_proposituras.js:45-62 | the filter keeps exactly the accepted elements, in their order, with one output per accepted element |
| Proposituras.Extension | camara_scraper_proposituras.js:50-55 | the extension is `doc` exactly when the lowercased text contains `modelo_requerimento`, and `pdf` otherwise |
| Proposituras.ExtractDocumentLinks | camara_scraper_proposituras.js:40-67 | the row loop yields the filter of the rows by the anchor test |
| Proposituras.DocumentLinksFromAnchors | camara_scraper_proposituras.js:45-62 | only rows with an anchor yield a link, in row order, no more links than rows; each link has the trimmed text, the target and an extension of `doc` or `pdf` |
| Proposituras.RowLink | camara_scraper_proposituras.js:46-61 | a row yields a link exactly when it has an anchor, with the anchor's trimmed text and its target |
| Proposituras.SaveAttachments | camara_scraper_proposituras.js:113-131 | `docLinks` has one entry per extracted link whether or not its download failed; a file is written for each download that answers OK |
| Proposituras.Attachments | camara_scraper_proposituras.js:116-131 | one attachment per link |
| Proposituras.SavedAttachmentsOk | camara_scraper_proposituras.js:120-125 | a failed download is swallowed: exactly the attachments whose download answers OK are written |
| Proposituras.FileNamesSafe | camara_scraper_proposituras.js:88-117 | the folder, the rendered PDF and each attachment file name are safe names |
| Proposituras.DocOutcome | camara_scraper_proposituras.js:82-140 | a document succeeds exactly when its detail page opens, with the record built from its title and links; the rendered PDF is the first file written; on failure nothing is written for it and the error names its link |
| Proposituras.ProcessDocument | camara_scraper_proposituras.js:82-146 | one turn of the document loop gives that document's outcome |
| Proposituras.PageOutcome | camara_scraper_proposituras.js:69-150 | the documents processed in order up to the first failure; a completed page has one record per listed document |
| Proposituras.ProcessPage | camara_scraper_proposituras.js:69-150 | the document loop gives the page outcome: all records in order, or the error of the first detail page that fails |
| Proposituras.PageOutcomeOk | camara_scraper_proposituras.js:81-147 | a page completes exactly when every listed detail page opens |
| Proposituras.PageOutcomeRecords | camara_scraper_proposituras.js:134-140 | a completed page yields one record per listed document, in order, stamped with the page, with `pdf = folder/sanitised title.pdf` |
| Proposituras.RecordsIgnoreDownloads | camara_scraper_proposituras.js:120-125 | the records do not depend on which downloads succeed |
| Proposituras.VisitStamped | camara_scraper_proposituras.js:139 | every record of a page carries that page's number |
| Proposituras.VisitPage | camara_scraper_proposituras.js:183-190 | loading listing page `paginaAtual` and processing it gives that page's outcome, and a listing that does not load fails the page |
| Proposituras.WalkPages | camara_scraper_proposituras.js:181-196 | the `while` loop gives the bounded walk of the listing pages |
| Proposituras.WriteCsv | camara_scraper_proposituras.js:206-235 | the CSV is the header, then per record one row per attachment or one blank row |
| Proposituras.WriteRecordRows | camara_scraper_proposituras.js:209-234 | the rows of one record: one per attachment, or one blank row without attachments |
| Proposituras.CsvRowCount | camara_scraper_proposituras.js:208-235 | the CSV has Σ max(1, number of attachments) data rows |
| Proposituras.RecordRowsReadBack | camara_scraper_proposituras.js:212-232 | each row reads back as its six fields, with the title exactly as it was and type and path empty on a blank row |
| Proposituras.AttachmentRowReadBack | camara_scraper_proposituras.js:210-220 | an attachment row reads back as its six fields when the fields written unescaped hold no quote |
| Proposituras.BlankRowReadBack | camara_scraper_proposituras.js:222-233 | a blank row reads back as the title, folder, PDF, two empty fields and the page when folder and PDF hold no quote |
| Proposituras.RecordForQuoteFree | camara_scraper_proposituras.js:88-140 | the fields written without escaping hold no quote whenever the output folder has none |
| Proposituras.Scrape | camara_scraper_proposituras.js:152-258 | resumes at the last stored page, walks, writes the CSV when the walk completes, and writes the JSON index whether it completed or failed (corrected `finally`, see Findings); the index holds only this run's records, since `todosDocumentosInfo` starts empty at line 179 and the stored records are not loaded into it |
| Proposituras.ResumedFailureEmptiesIndex | camara_scraper_proposituras.js:157-179 | a run resumed from a stored index that fails on its first page has no records, so the index it writes is empty and the next run starts again at page 1 |
| Proposituras.OnePageRun | camara_scraper_proposituras.js:181-196 | under `--uma-pagina` exactly one page is visited: on success the run completes at start + 1 with that page's records |
| Proposituras.BrowserUndefinedWritesNothing | camara_scraper_proposituras.js:175 | as written, a run whose page yields records still writes no file |
| Proposituras.MainAsWritten | camara_scraper_proposituras.js:174-175 | as written, `main` fails before any page and writes no file |
| Proposituras.FinallyAsWrittenLosesRecords | camara_scraper_proposituras.js:253-255 | as written, a failure after a completed page leaves no index, so those records are lost |
| Proposituras.FinishAsWritten | camara_scraper_proposituras.js:253-255 | as written, the index and the CSV exist exactly when the walk completed; the files saved are the walk's |
| Walker.ResumePage | camara_scraper_proposituras.js:157-172 | the start page is the last stored record's page itself, and 1 when the index is missing, unparseable or empty |
| Walker.ResumeAtHighestPage | camara_legislativo_complemento.js:139-143 | on an index sorted by page, no stored record lies beyond the resume page |
| Walker.Walk | camara_scraper_proposituras.js:181-196 | the bounded page loop moves forward from the start page by at most `bound` pages; it completes only under `--uma-pagina`, one page on; a walk that reaches the bound ends `bound` pages on |
| Walker.WalkVisitsConsecutivePages | camara_legislativo_complemento.js:166-182 | consecutive pages are visited: every page before `paginaAtual` completed and gave its records in page order; a failure is on `paginaAtual` and adds nothing; the run completes only under `--uma-pagina`, at start + 1 |
| Walker.WalkTurn | camara_legislativo_complemento.js:176-181 | one turn of the loop ends the walk on a failure or, under `--uma-pagina`, after the page, and otherwise appends the page's records and moves to the next page |
| Walker.WalkSortedByPage | camara_legislativo_complemento.js:176-178 | the records gathered are in non-decreasing page order, within the pages walked |
| Pages.Process | camara_legislativo_complemento.js:72-125 | the document loop: a completed page has one record per document |
| Pages.ProcessTurn | camara_legislativo_complemento.js:74-123 | one turn of the loop: a failing document gives the page's outcome with the files written so far, and a succeeding one appends its record |
| Pages.ProcessErrPersists | camara_legislativo_complemento.js:88-108 | once a document fails, the documents after it change nothing |
| Pages.ProcessOk | camara_scraper_proposituras.js:81-147 | a page completes exactly when every one of its documents does |
| Pages.ProcessRecords | camara_scraper_proposituras.js:133-140 | a completed page yields each document's record, in order |
| Pages.ProcessResultsAgree | camara_scraper_proposituras.js:120-125 | document steps that agree on results give the same page result, whatever files they write |
| Csv.RowRoundTrip | camara_scraper_proposituras.js:212-219 | fields quoted with doubled quotes, or written bare, joined by commas, read back as their values (section 2 of RFC 4180) |
| Csv.FieldRoundTrip | camara_scraper_proposituras.js:213-218 | one field, quoted with doubled quotes or bare, reads back as its value and leaves the rest of the row |
| Csv.QuotedRoundTrip | camara_scraper_proposituras.js:213 | a value with its quotes doubled, closed by a quote, reads back as the value (rule 7 of section 2 of RFC 4180) |
| Csv.EscapeNoQuote | camara_scraper_proposituras.js:213 | doubling quotes changes nothing in a value without quotes |
| Csv.LoneQuoteUnreadable | camara_scraper_proposituras.js:214 | the value `"` written between quotes without doubling gives the malformed row `"""` |
| Csv.UnescapedQuoteSplitsField | camara_scraper_proposituras.js:214-217 | the value `a","b` written between quotes without doubling reads back as the two fields `a` and `b`, and with its quotes doubled as itself; this is why `Proposituras.RecordRowsReadBack` requires the fields written unescaped to hold no quote |
| Csv.EscapeQuotes | camara_scraper_proposituras.js:213 | `replace(/"/g, '""')` never shortens the value; `Csv.QuotedRoundTrip` shows the reader undoes it |
| Complemento.ExtractDescriptors | camara_legislativo_complemento.js:33-58 | the `forEach` yields the filter of the items by the two-links test |
| Complemento.ItemDescriptor | camara_legislativo_complemento.js:40-53 | an item yields a descriptor exactly when its first and third anchors exist with a target, holding those two targets |
| Complemento.DescriptorsFromItems | camara_legislativo_complemento.js:40-54 | an item is kept exactly when its first and third anchors have a target, in listing order, no more descriptors than items; each has the first anchor's trimmed text and the two targets |
| Complemento.DocOutcome | camara_legislativo_complemento.js:81-120 | a document succeeds exactly when its export link is found and both downloads answer OK, with the record of that link, and then both files `<title>_pagina.pdf` and `<title>_manuscrito1.pdf` are saved, in that order; each failure gives its own error and files: a missing export link fails with `DetailFailed` of the detail link and writes nothing (:90), a failed export download fails with `DownloadFailed` of the export link and writes nothing (:104), and a failed download of the document's own PDF fails with `DownloadFailed` of that link and leaves exactly the export `<title>_pagina.pdf` saved just before (:108) |
| Complemento.ProcessDocument | camara_legislativo_complemento.js:75-120 | one turn of the document loop gives that document's outcome |
| Complemento.PageOutcome | camara_legislativo_complemento.js:65-126 | the documents processed in order up to the first failure, which no handler catches; a completed page has one record per document |
| Complemento.ProcessPage | camara_legislativo_complemento.js:65-126 | the document loop gives the page outcome: all records in order, or the first failure, which discards the whole page |
| Complemento.PageOutcomeOk | camara_legislativo_complemento.js:88-108 | a page completes exactly when every detail page shows its export link and both downloads answer OK |
| Complemento.PageOutcomeRecords | camara_legislativo_complemento.js:102-120 | a completed page yields one record per document, in order, stamped with the page, with `pagina_pdf = folder/title_pagina.pdf` and `pdf_direto = folder/title_manuscrito1.pdf` |
| Complemento.VisitStamped | camara_legislativo_complemento.js:119 | every record of a page carries that page's number |
| Complemento.VisitPage | camara_legislativo_complemento.js:167-176 | loading listing page `paginaAtual` and processing it gives that page's outcome, and a listing that does not load fails the page |
| Complemento.WalkPages | camara_legislativo_complemento.js:166-182 | the `while` loop appends the bounded walk of the listing pages to the records already held |
| Complemento.CsvRows | camara_legislativo_complemento.js:191-219 | one data row per record |
| Complemento.WriteCsv | camara_legislativo_complemento.js:189-219 | the CSV is the header, then one row per record with empty type and path fields |
| Complemento.RecordRowReadBack | camara_legislativo_complemento.js:209-216 | each row reads back as the title exactly as it was, the folder, `undefined`, two empty fields and the page |
| Complemento.RecordForFolderNoQuote | camara_legislativo_complemento.js:81 | a record's folder has no quote whenever the output folder has none |
| Complemento.Scrape | camara_legislativo_complemento.js:128-246 | keeps the stored records and resumes at their last page, walks, writes the CSV when the walk completes, and in `finally` rewrites the JSON index with all records whether the walk completed or failed |
| Complemento.WrittenIndexSorted | camara_legislativo_complemento.js:136-177 | when the stored index is sorted by page, or is missing, unparseable or empty, the index written is sorted by page |
| Complemento.OnePageRun | camara_legislativo_complemento.js:166-182 | under `--uma-pagina` one page is processed and `paginaAtual` ends at start + 1; the CSV has the header plus one row per record; a failed page leaves the stored records alone |
| Complemento.ResumeRevisitsLastPage | camara_legislativo_complemento.js:142-143 | the last stored page is processed again, so its records are appended a second time |

## Left out

- Browser automation is not modelled. Loading pages, waiting for selectors, DOM queries, opening and closing tabs, and PDF rendering are foreign calls. Their results are the `Site` functions. A failure to open, read or render a detail page is one `None`.
- HTTP is not modelled: a download is only "answers OK or not", and a `fetch` that throws counts as not OK.
- File system effects are not modelled. Writing, directory creation and the existence checks are left out. The files written are returned as a list of paths, and the CSV and JSON as values.
- `JSON.parse` and `JSON.stringify` are library calls. The stored index is `Missing`, `Unparseable` or a parsed list of records. A parsed value that is not an array of records is not modelled.
- Console logging and timers are left out: they have no effect on the data.
- The listing URL templates are constants of no logical weight.
- Text.IntToString: page numbers are modelled as unbounded integers, not JavaScript Numbers. From 1e21 on, `String(n)` gives exponent form (`1e+21`) where the model writes every digit (camara_scraper_proposituras.js:218, camara_legislativo_complemento.js:215).
- Walker.Walk: moves from page `p` to `p + 1` for every integer. From 2^53 on, `paginaAtual++` (camara_scraper_proposituras.js:192, camara_legislativo_complemento.js:178) leaves the Number unchanged, so the source would visit the same page again.
- FileNames.Join: does not model the normalisation `path.join` applies to `.` and `..` segments or repeated separators.
- Text.Lower: models `toLowerCase` on ASCII letters only. Case mapping of other letters is Unicode table data.
- Proposituras.WalkPages: the unbounded loop is cut at `bound` pages. A walk reaching the bound is `Unfinished`, and no file is written for it.
- Complemento.WalkPages: the same bound applies.
- Complemento.Scrape: the browser launch sits before the `try` block. If it fails, no `finally` runs and nothing is written. The model starts after a successful launch.
- Complemento.Scrape: the JSON index is written twice with the same content, once at the end of the `try` block and once in `finally`. The model records it once.
- The asynchronous end of the CSV stream is not modelled. The lines are returned in order.
- Tabs opened for detail pages are not closed when a download throws. The model does not track open tabs.

## Findings

| source | as written | input that shows it | evidently intended | confidence | as-written member | corrected member |
|---|---|---|---|---|---|---|
| camara_scraper_proposituras.js:175 | `browser.newPage()` reads `browser`, which is never declared, so the `try` block throws before any page is visited (Proposituras.MainAsWritten) | any run, e.g. `--uma-pagina` with a first page that yields records | launch a browser before the `try` block, as camara_legislativo_complemento.js:152-156 does | high; not executed | Proposituras.BrowserUndefinedWritesNothing | Proposituras.Scrape |
| camara_scraper_proposituras.js:253-255 | the `finally` block reads `infoPath` and `todosDocumentosInfo`, which are declared inside the `try` block, so it throws and never writes the index (Proposituras.FinishAsWritten) | a walk that completes a page with records and then fails on the next page | declare `todosDocumentosInfo` and `infoPath` before the `try` block and write the records of this run in `finally`. Unlike camara_legislativo_complemento.js:141, the stored records are not loaded, so the corrected index still holds only this run's records; `Proposituras.ResumedFailureEmptiesIndex` shows a resumed run that fails on its first page writing an empty index | high; not executed | Proposituras.FinallyAsWrittenLosesRecords | Proposituras.Scrape |
