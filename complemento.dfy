/** The legislation scraper (`camara_legislativo_complemento.js`). Each listing page
    shows `.normas-lista` items; an item whose first and third anchors have a target
    describes a document. For each document the script opens its detail page, finds
    the page's "export as PDF" link, downloads that export and the document's own PDF,
    and records the document. A download that does not answer OK throws, and nothing
    inside the page processing catches it. `main` resumes from the stored index,
    keeping its records, walks the pages, writes the CSV, and always rewrites the
    JSON index in its `finally` block.

    The browser and the network are the `Site`: what each listing page shows, the
    export link found on each detail page, and whether fetching a URL answers OK. */
module Complemento {
  import opened Wrappers
  import opened Text
  import opened FileNames
  import opened Lists
  import opened Csv
  import opened Dom
  import opened Walker
  import opened Pages

  /** The anchors of one `.normas-lista` item, in document order. */
  type Item = seq<Anchor>

  /** An entry of `extrairDocumentosNormasLista`. */
  datatype Descriptor = Descriptor(titulo: string, linkDetalhado: string, linkPDF: string)

  /** An entry of `documentos_info.json`. It has no `documentos` and no `pdf` field. */
  datatype Record = Record(
    titulo: string, pasta: string, pdfLink: string, manucristoLink: string,
    paginaPdf: string, pdfDireto: string, pagina: int)

  datatype Failure =
    | ListingFailed(page: int)     // loading listing page `page`, or waiting for its content, threw
    | DetailFailed(link: string)   // opening the detail page, or waiting for its export link, threw
    | DownloadFailed(url: string)  // fetching `url` did not answer OK

  /** The browser and the network: the items of each listing page, or None when
      loading it fails; the target of the export link of each detail page, or None
      when opening it or waiting for that link fails; and whether fetching a URL
      gives an OK response. */
  datatype Site = Site(
    listing: int -> Option<seq<Item>>,
    exportLink: string -> Option<string>,
    download: string -> bool)

  function PageOf(r: Record): int {
    r.pagina
  }

  // ---------------------------------------------------------------------------
  // extrairDocumentosNormasLista

  /** The descriptor an item yields: only when its first and third anchors both
      exist and have a non-empty target. */
  function ItemDescriptor(item: Item): (r: Option<Descriptor>)
    ensures r.Some? <==> |item| >= 3 && item[0].href != "" && item[2].href != ""
    ensures r.Some? ==> r.value.linkDetalhado == item[0].href && r.value.linkPDF == item[2].href
  {
    if |item| >= 3 && item[0].href != "" && item[2].href != "" then
      Some(Descriptor(Trim(item[0].text), item[0].href, item[2].href))
    else None
  }

  /** `extrairDocumentosNormasLista`: the `forEach` that pushes a descriptor for
      each item that has both links. */
  method ExtractDescriptors(itens: seq<Item>) returns (resultados: seq<Descriptor>)
    ensures resultados == FilterMap(itens, ItemDescriptor)
  {
    resultados := [];
    for i := 0 to |itens|
      invariant resultados == FilterMap(itens[..i], ItemDescriptor)
    {
      assert itens[..i + 1][..i] == itens[..i];
      var links := itens[i];
      if |links| >= 3 && links[0].href != "" && links[2].href != "" {
        resultados := resultados + [Descriptor(Trim(links[0].text), links[0].href, links[2].href)];
      }
    }
    assert itens[..|itens|] == itens;
  }

  /** An item is kept exactly when its first and third anchors have a target; the
      kept items come in listing order, so there are no more descriptors than items;
      each descriptor has the first anchor's trimmed text as title, the first
      anchor's target as detail link and the third anchor's as PDF link. */
  lemma DescriptorsFromItems(itens: seq<Item>)
    ensures var ds, ix := FilterMap(itens, ItemDescriptor), Kept(itens, ItemDescriptor);
      && |ds| == |ix| <= |itens|
      && (forall j :: 0 <= j < |itens| ==>
            ((|itens[j]| >= 3 && itens[j][0].href != "" && itens[j][2].href != "") <==> j in ix))
      && (forall k, l :: 0 <= k < l < |ix| ==> ix[k] < ix[l])
      && (forall k :: 0 <= k < |ds| ==>
            && ix[k] < |itens| && |itens[ix[k]]| >= 3
            && ds[k] == Descriptor(Trim(itens[ix[k]][0].text), itens[ix[k]][0].href, itens[ix[k]][2].href))
  {
    FilterMapKept(itens, ItemDescriptor);
  }

  // ---------------------------------------------------------------------------
  // processarPagina

  /** The record of a document whose detail page showed the export link `pdfLink`. */
  function RecordFor(outputDir: string, d: Descriptor, pdfLink: string, pagina: int): Record {
    var docDir := DocDir(outputDir, d.titulo);
    Record(d.titulo, docDir, pdfLink, d.linkDetalhado,
           Join(docDir, Sanitize(d.titulo) + "_pagina.pdf"),
           Join(docDir, Sanitize(d.titulo) + "_manuscrito1.pdf"),
           pagina)
  }

  /** The document's detail page opens and both of its downloads answer OK. */
  predicate DocOk(site: Site, d: Descriptor) {
    site.exportLink(d.linkDetalhado).Some? && site.download(site.exportLink(d.linkDetalhado).value)
    && site.download(d.linkPDF)
  }

  /** One document of `processarPagina`: open the detail page and read its export
      link, download the export to `<title>_pagina.pdf`, then the document's PDF to
      `<title>_manuscrito1.pdf`. Any failure throws before the record is pushed;
      when the second download fails, the export saved just before stays on disk. */
  function DocOutcome(site: Site, outputDir: string, d: Descriptor, pagina: int): (r: DocRun<Record, Failure>)
    ensures r.result.Ok? <==> DocOk(site, d)
    ensures r.result.Ok? ==> r.result.value == RecordFor(outputDir, d, site.exportLink(d.linkDetalhado).value, pagina)
    ensures r.result.Err? ==> r.saved == [] || (|r.saved| == 1 && r.result.error == DownloadFailed(d.linkPDF))
    ensures r.result.Err? && |r.saved| == 1 ==>
              site.exportLink(d.linkDetalhado).Some? && site.download(site.exportLink(d.linkDetalhado).value)
              && r.saved[0] == RecordFor(outputDir, d, site.exportLink(d.linkDetalhado).value, pagina).paginaPdf
    ensures r.result.Ok? ==> r.saved == [r.result.value.paginaPdf, r.result.value.pdfDireto]
    ensures site.exportLink(d.linkDetalhado).None? ==>
              r.result == Err(DetailFailed(d.linkDetalhado)) && r.saved == []
    ensures site.exportLink(d.linkDetalhado).Some? && !site.download(site.exportLink(d.linkDetalhado).value) ==>
              r.result == Err(DownloadFailed(site.exportLink(d.linkDetalhado).value)) && r.saved == []
    ensures site.exportLink(d.linkDetalhado).Some? && site.download(site.exportLink(d.linkDetalhado).value)
            && !site.download(d.linkPDF) ==>
              r.result == Err(DownloadFailed(d.linkPDF))
              && r.saved == [RecordFor(outputDir, d, site.exportLink(d.linkDetalhado).value, pagina).paginaPdf]
  {
    match site.exportLink(d.linkDetalhado)
    case None => DocRun(Err(DetailFailed(d.linkDetalhado)), [])
    case Some(pdfLink) =>
      var rec := RecordFor(outputDir, d, pdfLink, pagina);
      if !site.download(pdfLink) then DocRun(Err(DownloadFailed(pdfLink)), [])
      else if !site.download(d.linkPDF) then DocRun(Err(DownloadFailed(d.linkPDF)), [rec.paginaPdf])
      else DocRun(Ok(rec), [rec.paginaPdf, rec.pdfDireto])
  }

  function DocOf(site: Site, outputDir: string, pagina: int): Descriptor -> DocRun<Record, Failure> {
    d => DocOutcome(site, outputDir, d, pagina)
  }

  /** `processarPagina` over the descriptors of a listing page. */
  function PageOutcome(site: Site, outputDir: string, docs: seq<Descriptor>, pagina: int): (r: PageRun<Record, Failure>)
    ensures r.result.Ok? ==> |r.result.value| == |docs|
  {
    Process(docs, DocOf(site, outputDir, pagina))
  }

  /** The body of `processarPagina`'s loop for one document. */
  method ProcessDocument(site: Site, outputDir: string, doc: Descriptor, paginaAtual: int)
    returns (r: DocRun<Record, Failure>)
    ensures r == DocOutcome(site, outputDir, doc, paginaAtual)
  {
    var docDir := Join(outputDir, Sanitize(doc.titulo));
    var exportarPdfLink := site.exportLink(doc.linkDetalhado);
    if exportarPdfLink.None? {
      return DocRun(Err(DetailFailed(doc.linkDetalhado)), []);
    }
    var pdfPath := Join(docDir, Sanitize(doc.titulo) + "_pagina.pdf");
    if !site.download(exportarPdfLink.value) {
      return DocRun(Err(DownloadFailed(exportarPdfLink.value)), []);
    }
    var caminhoPDF := Join(docDir, Sanitize(doc.titulo) + "_manuscrito1.pdf");
    if !site.download(doc.linkPDF) {
      return DocRun(Err(DownloadFailed(doc.linkPDF)), [pdfPath]);
    }
    var info := Record(doc.titulo, docDir, exportarPdfLink.value, doc.linkDetalhado, pdfPath, caminhoPDF, paginaAtual);
    return DocRun(Ok(info), [pdfPath, caminhoPDF]);
  }

  /** `processarPagina`: extract the descriptors, then for each document download its
      two files and push its record. The first error ends the page and, since no
      handler inside catches it, the records pushed so far are dropped with it. */
  method ProcessPage(site: Site, outputDir: string, itens: seq<Item>, paginaAtual: int)
    returns (run: PageRun<Record, Failure>)
    ensures run == PageOutcome(site, outputDir, FilterMap(itens, ItemDescriptor), paginaAtual)
  {
    var documentos := ExtractDescriptors(itens);
    var documentosInfo: seq<Record> := [];
    var saved: seq<string> := [];
    for i := 0 to |documentos|
      invariant PageOutcome(site, outputDir, documentos[..i], paginaAtual) == PageRun(Ok(documentosInfo), saved)
    {
      var d := ProcessDocument(site, outputDir, documentos[i], paginaAtual);
      ProcessTurn(documentos, DocOf(site, outputDir, paginaAtual), i, documentosInfo, saved, d);
      if d.result.Err? {
        return PageRun(Err(d.result.error), saved + d.saved);
      }
      documentosInfo := documentosInfo + [d.result.value];
      saved := saved + d.saved;
    }
    assert documentos[..|documentos|] == documentos;
    return PageRun(Ok(documentosInfo), saved);
  }

  predicate AllOk(site: Site, docs: seq<Descriptor>) {
    forall k :: 0 <= k < |docs| ==> DocOk(site, docs[k])
  }

  /** A page completes exactly when every document's detail page opens and both its
      downloads answer OK: a single failed download loses the whole page. */
  lemma PageOutcomeOk(site: Site, outputDir: string, docs: seq<Descriptor>, pagina: int)
    ensures PageOutcome(site, outputDir, docs, pagina).result.Ok? <==> AllOk(site, docs)
  {
    ProcessOk(docs, DocOf(site, outputDir, pagina));
  }

  /** A completed page yields one record per document, in listing order, stamped
      with the page, holding the export link found and the two file paths
      `<folder>/<title>_pagina.pdf` and `<folder>/<title>_manuscrito1.pdf`. */
  lemma PageOutcomeRecords(site: Site, outputDir: string, docs: seq<Descriptor>, pagina: int)
    requires PageOutcome(site, outputDir, docs, pagina).result.Ok?
    ensures var rs := PageOutcome(site, outputDir, docs, pagina).result.value;
      && |rs| == |docs|
      && forall k :: 0 <= k < |docs| ==>
           && site.exportLink(docs[k].linkDetalhado).Some?
           && rs[k] == RecordFor(outputDir, docs[k], site.exportLink(docs[k].linkDetalhado).value, pagina)
           && rs[k].pagina == pagina
           && rs[k].paginaPdf == Join(DocDir(outputDir, docs[k].titulo), Sanitize(docs[k].titulo) + "_pagina.pdf")
           && rs[k].pdfDireto == Join(DocDir(outputDir, docs[k].titulo), Sanitize(docs[k].titulo) + "_manuscrito1.pdf")
  {
    ProcessRecords(docs, DocOf(site, outputDir, pagina));
  }

  // ---------------------------------------------------------------------------
  // main: the page loop

  /** Loading listing page `page` and processing it. */
  function Visit(site: Site, outputDir: string, page: int): PageRun<Record, Failure> {
    match site.listing(page)
    case None => PageRun(Err(ListingFailed(page)), [])
    case Some(itens) => PageOutcome(site, outputDir, FilterMap(itens, ItemDescriptor), page)
  }

  function VisitOf(site: Site, outputDir: string): int -> PageRun<Record, Failure> {
    p => Visit(site, outputDir, p)
  }

  /** Every record of a completed page carries that page's number. */
  lemma VisitStamped(site: Site, outputDir: string)
    ensures Stamped(VisitOf(site, outputDir), PageOf)
  {
    forall p, k | 0 <= k < |PageRecords(VisitOf(site, outputDir), p)|
      ensures PageOf(PageRecords(VisitOf(site, outputDir), p)[k]) == p
    {
      var docs := FilterMap(site.listing(p).value, ItemDescriptor);
      PageOutcomeRecords(site, outputDir, docs, p);
    }
  }

  /** One turn of `main`'s loop before its records are kept: load listing page
      `paginaAtual`, failing when it does not load, then process it. `visit` stands
      for `Visit` on this site and folder, page by page. */
  method VisitPage(site: Site, outputDir: string, paginaAtual: int, ghost visit: int -> PageRun<Record, Failure>)
    returns (run: PageRun<Record, Failure>)
    requires forall p {:trigger Visit(site, outputDir, p)} :: visit(p) == Visit(site, outputDir, p)
    ensures run == visit(paginaAtual)
  {
    assert visit(paginaAtual) == Visit(site, outputDir, paginaAtual);
    var itens := site.listing(paginaAtual);
    if itens.None? {
      return PageRun(Err(ListingFailed(paginaAtual)), []);
    }
    run := ProcessPage(site, outputDir, itens.value, paginaAtual);
  }

  /** The `while` loop of `main`, appending to the records `todosDocumentosInfo`
      already holds: load page `paginaAtual`, process it, append its records, move
      to the next page, and stop after one page under `--uma-pagina`. Any error ends
      the loop; `bound` caps the pages visited. */
  method WalkPages(site: Site, outputDir: string, start: int, apenasUmaPagina: bool, bound: nat, prior: seq<Record>,
                   ghost visit: int -> PageRun<Record, Failure>)
    returns (w: WalkEnd<Record, Failure>)
    requires forall p {:trigger Visit(site, outputDir, p)} :: visit(p) == Visit(site, outputDir, p)
    ensures w == Then(prior, [], Walk(visit, start, apenasUmaPagina, bound))
  {
    var paginaAtual := start;
    var todosDocumentosInfo := prior;
    var saved: seq<string> := [];
    var left := bound;
    while left > 0
      invariant Then(prior, [], Walk(visit, start, apenasUmaPagina, bound))
                == Then(todosDocumentosInfo, saved, Walk(visit, paginaAtual, apenasUmaPagina, left))
    {
      var run := VisitPage(site, outputDir, paginaAtual, visit);
      WalkTurn(visit, apenasUmaPagina, Then(prior, [], Walk(visit, start, apenasUmaPagina, bound)),
               paginaAtual, left, todosDocumentosInfo, saved, run);
      if run.result.Err? {
        return WalkEnd(Failed(run.result.error), todosDocumentosInfo, paginaAtual, saved + run.saved);
      }
      if apenasUmaPagina {
        return WalkEnd(Completed, todosDocumentosInfo + run.result.value, paginaAtual + 1, saved + run.saved);
      }
      todosDocumentosInfo := todosDocumentosInfo + run.result.value;
      saved := saved + run.saved;
      paginaAtual := paginaAtual + 1;
      left := left - 1;
    }
    WalkBound(visit, paginaAtual, apenasUmaPagina, todosDocumentosInfo, saved);
    return WalkEnd(Unfinished, todosDocumentosInfo, paginaAtual, saved);
  }

  // ---------------------------------------------------------------------------
  // main: the CSV file

  /** The row of a record. The record has no `documentos`, so the row always takes
      the branch without attachments, and no `pdf`, so the PDF field is the text
      `undefined`; only the title has its quotes doubled. */
  function RecordRow(doc: Record): string {
    JoinComma([Quote(EscapeQuotes(doc.titulo)), Quote(doc.pasta), Quote("undefined"),
               "", "", IntToString(doc.pagina)]) + "\n"
  }

  /** The data rows for `docs`: one per record. */
  function CsvRows(docs: seq<Record>): (rows: seq<string>)
    ensures |rows| == |docs|
  {
    seq(|docs|, k requires 0 <= k < |docs| => RecordRow(docs[k]))
  }

  /** The CSV writing of `main`: the header, then one row per record. */
  method WriteCsv(todosDocumentosInfo: seq<Record>) returns (lines: seq<string>)
    ensures lines == [Header] + CsvRows(todosDocumentosInfo)
  {
    lines := [Header];
    for i := 0 to |todosDocumentosInfo|
      invariant lines == [Header] + CsvRows(todosDocumentosInfo[..i])
    {
      var doc := todosDocumentosInfo[i];
      var linha := JoinComma([Quote(EscapeQuotes(doc.titulo)), Quote(doc.pasta), Quote("undefined"),
                              "", "", IntToString(doc.pagina)]) + "\n";
      assert CsvRows(todosDocumentosInfo[..i + 1]) == CsvRows(todosDocumentosInfo[..i]) + [linha];
      lines := lines + [linha];
    }
    assert todosDocumentosInfo[..|todosDocumentosInfo|] == todosDocumentosInfo;
  }

  /** When the folder holds no quote, a record's row reads back, by the rules of
      RFC 4180, as six values: the title exactly as it was, the folder, `undefined`,
      two empty fields and the page number. */
  lemma RecordRowReadBack(doc: Record)
    requires NoQuote(doc.pasta)
    ensures ParseRow(RecordRow(doc))
            == Some([doc.titulo, doc.pasta, "undefined", "", "", IntToString(doc.pagina)])
  {
    assert NoQuote("undefined");
    RowReadBack(doc.titulo, doc.pasta, "undefined", IntToString(doc.pagina));
  }

  lemma RowReadBack(titulo: string, pasta: string, pdf: string, page: string)
    requires NoQuote(pasta) && NoQuote(pdf) && BareSafe(page)
    ensures ParseRow(JoinComma([Quote(EscapeQuotes(titulo)), Quote(pasta), Quote(pdf), "", "", page]) + "\n")
            == Some([titulo, pasta, pdf, "", "", page])
  {
    EscapeNoQuote(pasta);
    EscapeNoQuote(pdf);
    var parts := [Quote(EscapeQuotes(titulo)), Quote(pasta), Quote(pdf), "", "", page];
    RowRoundTrip(parts, [titulo, pasta, pdf, "", "", page]);
  }

  /** A record built by the page processing has a quote-free folder whenever the
      output folder's path has none. */
  lemma RecordForFolderNoQuote(outputDir: string, d: Descriptor, pdfLink: string, pagina: int)
    requires NoQuote(outputDir)
    ensures NoQuote(RecordFor(outputDir, d, pdfLink, pagina).pasta)
  {
    JoinNoQuote(outputDir, Sanitize(d.titulo));
  }

  // ---------------------------------------------------------------------------
  // main

  /** The records `main` starts from: those of the stored index when it has any. */
  function PriorRecords(stored: Stored<Record>): seq<Record> {
    if HasRecords(stored) then stored.records else []
  }

  /** What a run leaves behind: how the walk ended, the JSON index written (None
      when it is not written), the CSV lines written, and the files saved. */
  datatype Run = Run(status: Status<Failure>, json: Option<seq<Record>>, csv: Option<seq<string>>, saved: seq<string>)

  /** `main`: resume at the last stored page keeping the stored records, walk the
      pages, write the CSV when the walk completes (only under `--uma-pagina`), and
      in the `finally` block rewrite the JSON index with every record gathered,
      whether the walk completed or failed. */
  method Scrape(site: Site, outputDir: string, stored: Stored<Record>, apenasUmaPagina: bool, bound: nat)
    returns (run: Run)
    ensures var w := Walk(VisitOf(site, outputDir), ResumePage(stored, PageOf), apenasUmaPagina, bound);
      var all := PriorRecords(stored) + w.records;
      && run.status == w.status && run.saved == w.saved
      && run.json == (if w.status.Unfinished? then None else Some(all))
      && run.csv == (if w.status.Completed? then Some([Header] + CsvRows(all)) else None)
  {
    var todosDocumentosInfo: seq<Record> := [];
    var paginaAtual := 1;
    if stored.Parsed? && |stored.records| > 0 {
      todosDocumentosInfo := stored.records;
      paginaAtual := stored.records[|stored.records| - 1].pagina;
    }
    assert paginaAtual == ResumePage(stored, PageOf);
    var w := WalkPages(site, outputDir, paginaAtual, apenasUmaPagina, bound, todosDocumentosInfo, VisitOf(site, outputDir));
    var json: Option<seq<Record>> := None;
    var csv: Option<seq<string>> := None;
    if w.status.Completed? {
      var lines := WriteCsv(w.records);
      csv := Some(lines);
      json := Some(w.records);
    }
    if !w.status.Unfinished? {
      // the `finally` block
      json := Some(w.records);
    }
    run := Run(w.status, json, csv, w.saved);
  }

  /** When the stored pages never decrease (or nothing usable is stored), neither do
      the pages of the index a run writes: the walk restarts at the highest stored
      page, or at page 1, and moves forward. */
  lemma WrittenIndexSorted(site: Site, outputDir: string, stored: Stored<Record>, apenasUmaPagina: bool, bound: nat)
    requires stored.Parsed? ==> SortedByPage(stored.records, PageOf)
    ensures var w := Walk(VisitOf(site, outputDir), ResumePage(stored, PageOf), apenasUmaPagina, bound);
      SortedByPage(PriorRecords(stored) + w.records, PageOf)
  {
    var start := ResumePage(stored, PageOf);
    var visit := VisitOf(site, outputDir);
    var w := Walk(visit, start, apenasUmaPagina, bound);
    var prior := PriorRecords(stored);
    VisitStamped(site, outputDir);
    WalkSortedByPage(visit, PageOf, start, apenasUmaPagina, bound);
    if HasRecords(stored) {
      ResumeAtHighestPage(stored, PageOf);
      assert forall k :: 0 <= k < |prior| ==> prior[k] in stored.records;
      SortedConcat(prior, w.records, PageOf, start);
    } else {
      assert prior + w.records == w.records;
    }
  }

  /** Under `--uma-pagina` a run visits exactly the resume page and leaves
      `paginaAtual` one past it when that page completes: the index and the CSV then
      hold the stored records followed by that page's records, all of the latter
      stamped with it, and the CSV has the header plus one row per record. When the
      page fails, the index written is the stored records alone and no CSV is
      written. */
  lemma {:induction false} OnePageRun(site: Site, outputDir: string, stored: Stored<Record>, bound: nat)
    requires bound >= 1
    ensures var start := ResumePage(stored, PageOf);
      var w := Walk(VisitOf(site, outputDir), start, true, bound);
      var all := PriorRecords(stored) + w.records;
      && (Visit(site, outputDir, start).result.Ok? ==>
            && w.status == Completed && w.next == start + 1
            && w.records == Visit(site, outputDir, start).result.value
            && (forall k :: 0 <= k < |w.records| ==> w.records[k].pagina == start)
            && |[Header] + CsvRows(all)| == |PriorRecords(stored)| + |w.records| + 1)
      && (Visit(site, outputDir, start).result.Err? ==>
            w.status.Failed? && w.next == start && all == PriorRecords(stored))
      && (NoQuote(outputDir) ==> forall k :: 0 <= k < |w.records| ==> NoQuote(w.records[k].pasta))
  {
    var start := ResumePage(stored, PageOf);
    var visit := VisitOf(site, outputDir);
    var w := Walk(visit, start, true, bound);
    assert visit(start) == Visit(site, outputDir, start);
    WalkSortedByPage(visit, PageOf, start, true, bound) by {
      VisitStamped(site, outputDir);
    }
    if Visit(site, outputDir, start).result.Ok? && NoQuote(outputDir) {
      var docs := FilterMap(site.listing(start).value, ItemDescriptor);
      PageOutcomeRecords(site, outputDir, docs, start);
      forall k | 0 <= k < |w.records| ensures NoQuote(w.records[k].pasta) {
        RecordForFolderNoQuote(outputDir, docs[k], site.exportLink(docs[k].linkDetalhado).value, start);
      }
    }
  }

  /** On resume the last stored page is processed again: under `--uma-pagina`, when
      that page completes, the index written is the stored records followed by that
      page's records once more. */
  lemma ResumeRevisitsLastPage(site: Site, outputDir: string, stored: Stored<Record>, bound: nat)
    requires bound >= 1 && HasRecords(stored)
    requires Visit(site, outputDir, ResumePage(stored, PageOf)).result.Ok?
    ensures var last := stored.records[|stored.records| - 1];
      var w := Walk(VisitOf(site, outputDir), last.pagina, true, bound);
      && w.status == Completed && w.next == last.pagina + 1
      && PriorRecords(stored) + w.records
         == stored.records + Visit(site, outputDir, last.pagina).result.value
  {
    var last := stored.records[|stored.records| - 1];
    assert VisitOf(site, outputDir)(last.pagina) == Visit(site, outputDir, last.pagina);
  }
}
