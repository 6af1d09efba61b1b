/** The proposals scraper (`camara_scraper_proposituras.js`). For every listing page
    it opens each listed proposal, renders the proposal's page to a PDF, downloads
    every file linked from the page's attachments table (a failed download is logged
    and skipped), and records the proposal with its attachments. `main` resumes
    from the stored index, walks the pages and writes the CSV and JSON index.

    The browser and the network are the `Site`: what each listing page and detail
    page shows, and whether fetching a URL answers OK. */
module Proposituras {
  import opened Wrappers
  import opened Text
  import opened FileNames
  import opened Lists
  import opened Csv
  import opened Dom
  import opened Walker
  import opened Pages

  /** A row of the attachments table: its first anchor, if it has one. */
  type Row = Option<Anchor>

  /** An entry of `extrairLinksDocumentos`: link text, target and file extension. */
  datatype DocLink = DocLink(texto: string, href: string, extensao: string)

  /** An entry of a record's `documentos`: the file kind and where it was saved. */
  datatype Attachment = Attachment(tipo: string, caminho: string)

  /** An entry of `documentos_info.json`. */
  datatype Record = Record(titulo: string, pasta: string, pdf: string, documentos: seq<Attachment>, pagina: int)

  datatype Failure =
    | ListingFailed(page: int)     // loading listing page `page`, or waiting for its list, threw
    | DetailFailed(link: string)   // opening, reading or rendering a detail page threw
    | BrowserUndefined             // `browser` is read but never declared
    | InfoPathUndefined            // `infoPath` is read outside the block that declares it

  /** The browser and the network: the title anchors (`.data-list-item h4 a`) of each
      listing page, or None when loading it fails; the rows of the attachments table
      of each detail page, or None when opening, reading or rendering it fails; and
      whether fetching a URL gives an OK response. */
  datatype Site = Site(
    listing: int -> Option<seq<Anchor>>,
    detail: string -> Option<seq<Row>>,
    download: string -> bool)

  function PageOf(r: Record): int {
    r.pagina
  }

  // ---------------------------------------------------------------------------
  // extrairLinksDocumentos

  /** The file extension chosen from a link's (trimmed) text: `doc` exactly when the
      lowercased text contains `modelo_requerimento`, `pdf` otherwise, whether or not
      it mentions `documento assinado`. */
  function Extension(texto: string): (e: string)
    ensures e == "doc" || e == "pdf"
    ensures e == "doc" <==> Contains(Lower(texto), "modelo_requerimento")
  {
    var lower := Lower(texto);
    if Contains(lower, "modelo_requerimento") then "doc"
    else if Contains(lower, "documento assinado") then "pdf"
    else "pdf"
  }

  /** The entry a table row contributes: none without an anchor. */
  function RowLink(row: Row): (r: Option<DocLink>)
    ensures r.Some? <==> row.Some?
    ensures r.Some? ==> r.value.texto == Trim(row.value.text) && r.value.href == row.value.href
  {
    match row
    case None => None
    case Some(a) =>
      var texto := Trim(a.text);
      Some(DocLink(texto, a.href, Extension(texto)))
  }

  /** `extrairLinksDocumentos`: one entry per table row that has an anchor. */
  method ExtractDocumentLinks(rows: seq<Row>) returns (links: seq<DocLink>)
    ensures links == FilterMap(rows, RowLink)
  {
    links := [];
    for i := 0 to |rows|
      invariant links == FilterMap(rows[..i], RowLink)
    {
      assert rows[..i + 1][..i] == rows[..i];
      match rows[i] {
        case None =>
        case Some(link) =>
          var texto := Trim(link.text);
          links := links + [DocLink(texto, link.href, Extension(texto))];
      }
    }
    assert rows[..|rows|] == rows;
  }

  /** Only rows with an anchor yield an entry, in the order of the rows, so there are
      no more entries than rows; each entry holds its anchor's trimmed text and
      target, and an extension that is `doc` or `pdf`. */
  lemma DocumentLinksFromAnchors(rows: seq<Row>)
    ensures var links, ix := FilterMap(rows, RowLink), Kept(rows, RowLink);
      && |links| == |ix| <= |rows|
      && (forall j :: 0 <= j < |rows| ==> (rows[j].Some? <==> j in ix))
      && (forall k, l :: 0 <= k < l < |ix| ==> ix[k] < ix[l])
      && (forall k :: 0 <= k < |links| ==>
            && ix[k] < |rows| && rows[ix[k]].Some?
            && links[k].texto == Trim(rows[ix[k]].value.text)
            && links[k].href == rows[ix[k]].value.href
            && (links[k].extensao == "doc" || links[k].extensao == "pdf"))
  {
    FilterMapKept(rows, RowLink);
  }

  // ---------------------------------------------------------------------------
  // processarPagina

  /** The file name of an attachment: `<sanitised title>_<sanitised text>.<extension>`. */
  function AttachmentName(titulo: string, link: DocLink): string {
    Sanitize(titulo) + "_" + Sanitize(link.texto) + "." + link.extensao
  }

  function AttachmentFor(docDir: string, titulo: string, link: DocLink): Attachment {
    Attachment(link.extensao, Join(docDir, AttachmentName(titulo, link)))
  }

  /** `docLinks`: one entry per extracted link, downloaded or not. */
  function Attachments(docDir: string, titulo: string, links: seq<DocLink>): (r: seq<Attachment>)
    ensures |r| == |links|
  {
    seq(|links|, k requires 0 <= k < |links| => AttachmentFor(docDir, titulo, links[k]))
  }

  /** The attachment files actually written: those whose download answered OK. */
  function SavedAttachments(site: Site, docDir: string, titulo: string, links: seq<DocLink>): seq<string> {
    if links == [] then []
    else
      var last := links[|links| - 1];
      SavedAttachments(site, docDir, titulo, links[..|links| - 1])
      + (if site.download(last.href) then [AttachmentFor(docDir, titulo, last).caminho] else [])
  }

  /** The record of one document whose detail page yielded `links`. */
  function RecordFor(outputDir: string, titulo: string, links: seq<DocLink>, pagina: int): Record {
    var docDir := DocDir(outputDir, titulo);
    Record(titulo, docDir, Join(docDir, Sanitize(titulo) + ".pdf"), Attachments(docDir, titulo, links), pagina)
  }

  /** The record of a listed document whose detail page opens. */
  function DocRecord(site: Site, outputDir: string, doc: Anchor, pagina: int): Record
    requires site.detail(doc.href).Some?
  {
    RecordFor(outputDir, Trim(doc.text), FilterMap(site.detail(doc.href).value, RowLink), pagina)
  }

  /** The files written for a listed document whose detail page opens: its rendered
      page, then the attachments whose download answered OK. */
  function DocFiles(site: Site, outputDir: string, doc: Anchor): seq<string>
    requires site.detail(doc.href).Some?
  {
    var titulo := Trim(doc.text);
    var docDir := DocDir(outputDir, titulo);
    [Join(docDir, Sanitize(titulo) + ".pdf")]
    + SavedAttachments(site, docDir, titulo, FilterMap(site.detail(doc.href).value, RowLink))
  }

  /** One listed document of `processarPagina`: a detail page that cannot be opened,
      read or rendered fails the page before anything is written for it; otherwise
      the rendered page is written first, then the attachments that download. */
  function DocOutcome(site: Site, outputDir: string, doc: Anchor, pagina: int): (r: DocRun<Record, Failure>)
    ensures r.result.Ok? <==> site.detail(doc.href).Some?
    ensures r.result.Ok? ==> r.result.value == DocRecord(site, outputDir, doc, pagina)
    ensures r.result.Ok? ==> |r.saved| >= 1 && r.saved[0] == r.result.value.pdf
    ensures r.result.Err? ==> r.result.error == DetailFailed(doc.href) && r.saved == []
  {
    if site.detail(doc.href).None? then DocRun(Err(DetailFailed(doc.href)), [])
    else DocRun(Ok(DocRecord(site, outputDir, doc, pagina)), DocFiles(site, outputDir, doc))
  }

  function DocOf(site: Site, outputDir: string, pagina: int): Anchor -> DocRun<Record, Failure> {
    doc => DocOutcome(site, outputDir, doc, pagina)
  }

  /** `processarPagina` over the anchors a listing page shows. */
  function PageOutcome(site: Site, outputDir: string, listed: seq<Anchor>, pagina: int): (r: PageRun<Record, Failure>)
    ensures r.result.Ok? ==> |r.result.value| == |listed|
  {
    Process(listed, DocOf(site, outputDir, pagina))
  }

  /** The download loop of `processarPagina`: one entry per link whether or not its
      download succeeded, and a file written for each success. */
  method SaveAttachments(site: Site, docDir: string, titulo: string, linksDocumentos: seq<DocLink>)
    returns (docLinks: seq<Attachment>, saved: seq<string>)
    ensures docLinks == Attachments(docDir, titulo, linksDocumentos)
    ensures saved == SavedAttachments(site, docDir, titulo, linksDocumentos)
  {
    docLinks := [];
    saved := [];
    for j := 0 to |linksDocumentos|
      invariant docLinks == Attachments(docDir, titulo, linksDocumentos[..j])
      invariant saved == SavedAttachments(site, docDir, titulo, linksDocumentos[..j])
    {
      assert linksDocumentos[..j + 1][..j] == linksDocumentos[..j];
      var link := linksDocumentos[j];
      var nomeArquivo := Sanitize(titulo) + "_" + Sanitize(link.texto) + "." + link.extensao;
      var caminhoArquivo := Join(docDir, nomeArquivo);
      if site.download(link.href) {
        saved := saved + [caminhoArquivo];
      }
      docLinks := docLinks + [Attachment(link.extensao, caminhoArquivo)];
    }
    assert linksDocumentos[..|linksDocumentos|] == linksDocumentos;
  }

  /** The body of `processarPagina`'s loop for one listed document: open its detail
      page, read its attachment links, render the page to PDF, download the
      attachments. */
  method ProcessDocument(site: Site, outputDir: string, doc: Anchor, paginaAtual: int)
    returns (r: DocRun<Record, Failure>)
    ensures r == DocOutcome(site, outputDir, doc, paginaAtual)
  {
    var titulo := Trim(doc.text);
    var docDir := Join(outputDir, Sanitize(titulo));
    var page := site.detail(doc.href);
    if page.None? {
      return DocRun(Err(DetailFailed(doc.href)), []);
    }
    var linksDocumentos := ExtractDocumentLinks(page.value);
    var pdfPath := Join(docDir, Sanitize(titulo) + ".pdf");
    var docLinks, downloaded := SaveAttachments(site, docDir, titulo, linksDocumentos);
    return DocRun(Ok(Record(titulo, docDir, pdfPath, docLinks, paginaAtual)), [pdfPath] + downloaded);
  }

  /** `processarPagina`: for each listed document, render its page to PDF, download
      each attachment (a failure is logged and the next one is tried) and push its
      record. An error while opening a detail page ends the page. */
  method ProcessPage(site: Site, outputDir: string, listed: seq<Anchor>, paginaAtual: int)
    returns (run: PageRun<Record, Failure>)
    ensures run == PageOutcome(site, outputDir, listed, paginaAtual)
  {
    var documentosInfo: seq<Record> := [];
    var saved: seq<string> := [];
    for i := 0 to |listed|
      invariant PageOutcome(site, outputDir, listed[..i], paginaAtual) == PageRun(Ok(documentosInfo), saved)
    {
      var d := ProcessDocument(site, outputDir, listed[i], paginaAtual);
      ProcessTurn(listed, DocOf(site, outputDir, paginaAtual), i, documentosInfo, saved, d);
      if d.result.Err? {
        return PageRun(Err(d.result.error), saved + d.saved);
      }
      documentosInfo := documentosInfo + [d.result.value];
      saved := saved + d.saved;
    }
    assert listed[..|listed|] == listed;
    return PageRun(Ok(documentosInfo), saved);
  }

  /** Every listed document's detail page opens. */
  predicate AllOpen(site: Site, listed: seq<Anchor>) {
    forall k :: 0 <= k < |listed| ==> site.detail(listed[k].href).Some?
  }

  /** A page is processed in full exactly when every listed document's detail page
      opens. */
  lemma PageOutcomeOk(site: Site, outputDir: string, listed: seq<Anchor>, pagina: int)
    ensures PageOutcome(site, outputDir, listed, pagina).result.Ok? <==> AllOpen(site, listed)
  {
    ProcessOk(listed, DocOf(site, outputDir, pagina));
  }

  /** A page processed in full yields one record per listed document, in listing
      order, each stamped with the page and built from that document's title and
      links. */
  lemma PageOutcomeRecords(site: Site, outputDir: string, listed: seq<Anchor>, pagina: int)
    requires PageOutcome(site, outputDir, listed, pagina).result.Ok?
    ensures var rs := PageOutcome(site, outputDir, listed, pagina).result.value;
      && |rs| == |listed|
      && forall k :: 0 <= k < |listed| ==>
           site.detail(listed[k].href).Some? && rs[k] == DocRecord(site, outputDir, listed[k], pagina)
  {
    ProcessRecords(listed, DocOf(site, outputDir, pagina));
  }

  /** The records do not depend on which downloads succeed: a failed download only
      leaves its file unwritten. */
  lemma RecordsIgnoreDownloads(site: Site, other: Site, outputDir: string, listed: seq<Anchor>, pagina: int)
    requires other.detail == site.detail
    ensures PageOutcome(site, outputDir, listed, pagina).result == PageOutcome(other, outputDir, listed, pagina).result
  {
    ProcessResultsAgree(listed, DocOf(site, outputDir, pagina), DocOf(other, outputDir, pagina));
  }

  /** Every attachment whose download answers OK is written, and nothing else. */
  lemma {:induction false} SavedAttachmentsOk(site: Site, docDir: string, titulo: string, links: seq<DocLink>)
    ensures forall k :: 0 <= k < |links| && site.download(links[k].href) ==>
              AttachmentFor(docDir, titulo, links[k]).caminho in SavedAttachments(site, docDir, titulo, links)
    ensures forall c :: c in SavedAttachments(site, docDir, titulo, links) ==>
              exists k :: 0 <= k < |links| && site.download(links[k].href) && c == AttachmentFor(docDir, titulo, links[k]).caminho
  {
    if links != [] {
      var init := links[..|links| - 1];
      SavedAttachmentsOk(site, docDir, titulo, init);
      assert forall k :: 0 <= k < |init| ==> init[k] == links[k];
    }
  }

  /** Names a record is built from are safe for the file system: the folder, the
      rendered PDF and each attachment file, given an extension of `doc` or `pdf`. */
  lemma FileNamesSafe(titulo: string, link: DocLink)
    requires link.extensao == "doc" || link.extensao == "pdf"
    ensures IsSafeName(Sanitize(titulo))
    ensures IsSafeName(Sanitize(titulo) + ".pdf")
    ensures IsSafeName(AttachmentName(titulo, link))
  {
    var t, u := Sanitize(titulo), Sanitize(link.texto);
    SuffixesSafe(link.extensao);
    SafeNameAppend(t, ".pdf");
    SafeNameAppend(t, "_");
    SafeNameAppend(t + "_", u);
    SafeNameAppend(t + "_" + u, ".");
    SafeNameAppend(t + "_" + u + ".", link.extensao);
  }

  /** The fixed pieces of the file names are safe. */
  lemma SuffixesSafe(extensao: string)
    requires extensao == "doc" || extensao == "pdf"
    ensures IsSafeName("_") && IsSafeName(".") && IsSafeName(".pdf") && IsSafeName(extensao)
  {
    PlainNameSafe("_");
    PlainNameSafe(".");
    PlainNameSafe(".pdf");
    PlainNameSafe(extensao);
  }

  // ---------------------------------------------------------------------------
  // main: the page loop

  /** Loading listing page `page` and processing it. */
  function Visit(site: Site, outputDir: string, page: int): PageRun<Record, Failure> {
    match site.listing(page)
    case None => PageRun(Err(ListingFailed(page)), [])
    case Some(listed) => PageOutcome(site, outputDir, listed, page)
  }

  function VisitOf(site: Site, outputDir: string): int -> PageRun<Record, Failure> {
    p => Visit(site, outputDir, p)
  }

  /** Every record of a processed page carries that page's number. */
  lemma VisitStamped(site: Site, outputDir: string)
    ensures Stamped(VisitOf(site, outputDir), PageOf)
  {
    forall p, k | 0 <= k < |PageRecords(VisitOf(site, outputDir), p)|
      ensures PageOf(PageRecords(VisitOf(site, outputDir), p)[k]) == p
    {
      var listed := site.listing(p).value;
      PageOutcomeRecords(site, outputDir, listed, p);
    }
  }

  /** One turn of `main`'s loop before its records are kept: load listing page
      `paginaAtual`, failing when it does not load, then process it. `visit` stands
      for `Visit` on this site and folder, page by page. */
  method VisitPage(site: Site, outputDir: string, paginaAtual: int, ghost visit: int -> PageRun<Record, Failure>)
    returns (run: PageRun<Record, Failure>)
    requires forall p {:trigger Visit(site, outputDir, p)} :: visit(p) == Visit(site, outputDir, p)
    ensures run == visit(paginaAtual)
  {
    assert visit(paginaAtual) == Visit(site, outputDir, paginaAtual);
    var listed := site.listing(paginaAtual);
    if listed.None? {
      return PageRun(Err(ListingFailed(paginaAtual)), []);
    }
    run := ProcessPage(site, outputDir, listed.value, paginaAtual);
  }

  /** The `while` loop of `main`: load page `paginaAtual`, process it, append its
      records, move to the next page, and stop after one page under `--uma-pagina`.
      Any error ends the loop; `bound` caps the pages visited. */
  method WalkPages(site: Site, outputDir: string, start: int, apenasUmaPagina: bool, bound: nat,
                   ghost visit: int -> PageRun<Record, Failure>)
    returns (w: WalkEnd<Record, Failure>)
    requires forall p {:trigger Visit(site, outputDir, p)} :: visit(p) == Visit(site, outputDir, p)
    ensures w == Walk(visit, start, apenasUmaPagina, bound)
  {
    var paginaAtual := start;
    var todosDocumentosInfo: seq<Record> := [];
    var saved: seq<string> := [];
    var left := bound;
    ThenNothing(Walk(visit, start, apenasUmaPagina, bound));
    while left > 0
      invariant Walk(visit, start, apenasUmaPagina, bound)
                == Then(todosDocumentosInfo, saved, Walk(visit, paginaAtual, apenasUmaPagina, left))
    {
      var run := VisitPage(site, outputDir, paginaAtual, visit);
      WalkTurn(visit, apenasUmaPagina, Walk(visit, start, apenasUmaPagina, bound),
               paginaAtual, left, todosDocumentosInfo, saved, run);
      if run.result.Err? {
        return WalkEnd(Failed(run.result.error), todosDocumentosInfo, paginaAtual, saved + run.saved);
      }
      if apenasUmaPagina {
        return WalkEnd(Completed, todosDocumentosInfo + run.result.value, paginaAtual + 1, saved + run.saved);
      }
      todosDocumentosInfo := todosDocumentosInfo + run.result.value;
      saved := saved + run.saved;
      paginaAtual := paginaAtual + 1;
      left := left - 1;
    }
    WalkBound(visit, paginaAtual, apenasUmaPagina, todosDocumentosInfo, saved);
    return WalkEnd(Unfinished, todosDocumentosInfo, paginaAtual, saved);
  }

  // ---------------------------------------------------------------------------
  // main: the CSV file

  /** The row of one attachment of `doc`; only the title has its quotes doubled. */
  function AttachmentRow(doc: Record, arq: Attachment): string {
    JoinComma([Quote(EscapeQuotes(doc.titulo)), Quote(doc.pasta), Quote(doc.pdf),
               Quote(arq.tipo), Quote(arq.caminho), IntToString(doc.pagina)]) + "\n"
  }

  /** The row of a document without attachments: type and path left empty. */
  function BlankRow(doc: Record): string {
    JoinComma([Quote(EscapeQuotes(doc.titulo)), Quote(doc.pasta), Quote(doc.pdf),
               "", "", IntToString(doc.pagina)]) + "\n"
  }

  function RecordRows(doc: Record): seq<string> {
    if |doc.documentos| > 0 then
      seq(|doc.documentos|, k requires 0 <= k < |doc.documentos| => AttachmentRow(doc, doc.documentos[k]))
    else [BlankRow(doc)]
  }

  /** The data rows for `docs`, record after record. */
  function CsvRows(docs: seq<Record>): seq<string> {
    if docs == [] then [] else CsvRows(docs[..|docs| - 1]) + RecordRows(docs[|docs| - 1])
  }

  /** The sum over `docs` of the larger of 1 and the number of attachments. */
  function RowCount(docs: seq<Record>): nat {
    if docs == [] then 0
    else RowCount(docs[..|docs| - 1]) + (if |docs[|docs| - 1].documentos| > 1 then |docs[|docs| - 1].documentos| else 1)
  }

  /** The rows written for one record of `main`'s CSV loop: one per attachment, or
      one with empty type and path when it has none. */
  method WriteRecordRows(doc: Record) returns (linhas: seq<string>)
    ensures linhas == RecordRows(doc)
  {
    if |doc.documentos| > 0 {
      linhas := [];
      for j := 0 to |doc.documentos|
        invariant linhas == RecordRows(doc)[..j]
      {
        var arq := doc.documentos[j];
        var linha := JoinComma([Quote(EscapeQuotes(doc.titulo)), Quote(doc.pasta), Quote(doc.pdf),
                                Quote(arq.tipo), Quote(arq.caminho), IntToString(doc.pagina)]) + "\n";
        assert RecordRows(doc)[..j + 1] == RecordRows(doc)[..j] + [linha];
        linhas := linhas + [linha];
      }
      assert RecordRows(doc)[..|doc.documentos|] == RecordRows(doc);
    } else {
      var linha := JoinComma([Quote(EscapeQuotes(doc.titulo)), Quote(doc.pasta), Quote(doc.pdf),
                              "", "", IntToString(doc.pagina)]) + "\n";
      linhas := [linha];
    }
  }

  /** The CSV writing of `main`: the header, then the rows of each record in turn. */
  method WriteCsv(todosDocumentosInfo: seq<Record>) returns (lines: seq<string>)
    ensures lines == [Header] + CsvRows(todosDocumentosInfo)
  {
    lines := [Header];
    for i := 0 to |todosDocumentosInfo|
      invariant lines == [Header] + CsvRows(todosDocumentosInfo[..i])
    {
      var linhas := WriteRecordRows(todosDocumentosInfo[i]);
      CsvRowsStep(todosDocumentosInfo, i);
      AppendAssoc([Header], CsvRows(todosDocumentosInfo[..i]), linhas);
      lines := lines + linhas;
    }
    assert todosDocumentosInfo[..|todosDocumentosInfo|] == todosDocumentosInfo;
  }

  lemma CsvRowsStep(docs: seq<Record>, i: nat)
    requires i < |docs|
    ensures CsvRows(docs[..i + 1]) == CsvRows(docs[..i]) + RecordRows(docs[i])
  {
    assert docs[..i + 1][..i] == docs[..i];
  }

  /** The CSV has one data row per attachment and one for each record without any. */
  lemma {:induction false} CsvRowCount(docs: seq<Record>)
    ensures |CsvRows(docs)| == RowCount(docs)
  {
    if docs != [] {
      CsvRowCount(docs[..|docs| - 1]);
    }
  }

  /** The fields written between quotes without escaping hold no quote. */
  predicate QuoteFree(doc: Record) {
    && NoQuote(doc.pasta) && NoQuote(doc.pdf)
    && forall k :: 0 <= k < |doc.documentos| ==>
         NoQuote(doc.documentos[k].tipo) && NoQuote(doc.documentos[k].caminho)
  }

  /** When the unescaped fields hold no quote, every row of a record reads back, by
      the rules of RFC 4180, as its six values: the title exactly as it was, the
      folder, the PDF, the attachment's type and path (both empty on a blank row)
      and the page number. */
  lemma RecordRowsReadBack(doc: Record)
    requires QuoteFree(doc)
    ensures |doc.documentos| == 0 ==>
      ParseRow(RecordRows(doc)[0]) == Some([doc.titulo, doc.pasta, doc.pdf, "", "", IntToString(doc.pagina)])
    ensures forall k :: 0 <= k < |doc.documentos| ==>
      ParseRow(RecordRows(doc)[k])
      == Some([doc.titulo, doc.pasta, doc.pdf, doc.documentos[k].tipo, doc.documentos[k].caminho, IntToString(doc.pagina)])
  {
    if |doc.documentos| == 0 {
      BlankRowReadBack(doc);
    }
    forall k | 0 <= k < |doc.documentos|
      ensures ParseRow(RecordRows(doc)[k])
              == Some([doc.titulo, doc.pasta, doc.pdf, doc.documentos[k].tipo, doc.documentos[k].caminho, IntToString(doc.pagina)])
    {
      AttachmentRowReadBack(doc, doc.documentos[k]);
    }
  }

  lemma BlankRowReadBack(doc: Record)
    requires NoQuote(doc.pasta) && NoQuote(doc.pdf)
    ensures ParseRow(BlankRow(doc)) == Some([doc.titulo, doc.pasta, doc.pdf, "", "", IntToString(doc.pagina)])
  {
    EscapeNoQuote(doc.pasta);
    EscapeNoQuote(doc.pdf);
    var page := IntToString(doc.pagina);
    assert BareSafe(page);
    var parts := [Quote(EscapeQuotes(doc.titulo)), Quote(doc.pasta), Quote(doc.pdf), "", "", page];
    RowRoundTrip(parts, [doc.titulo, doc.pasta, doc.pdf, "", "", page]);
  }

  lemma AttachmentRowReadBack(doc: Record, arq: Attachment)
    requires NoQuote(doc.pasta) && NoQuote(doc.pdf) && NoQuote(arq.tipo) && NoQuote(arq.caminho)
    ensures ParseRow(AttachmentRow(doc, arq))
            == Some([doc.titulo, doc.pasta, doc.pdf, arq.tipo, arq.caminho, IntToString(doc.pagina)])
  {
    EscapeNoQuote(doc.pasta);
    EscapeNoQuote(doc.pdf);
    EscapeNoQuote(arq.tipo);
    EscapeNoQuote(arq.caminho);
    var page := IntToString(doc.pagina);
    assert BareSafe(page);
    var parts := [Quote(EscapeQuotes(doc.titulo)), Quote(doc.pasta), Quote(doc.pdf), Quote(arq.tipo), Quote(arq.caminho), page];
    RowRoundTrip(parts, [doc.titulo, doc.pasta, doc.pdf, arq.tipo, arq.caminho, page]);
  }

  /** A record built by the page processing meets the condition of
      RecordRowsReadBack whenever the output folder's path holds no quote: the
      sanitised names cannot hold one. */
  lemma RecordForQuoteFree(outputDir: string, titulo: string, links: seq<DocLink>, pagina: int)
    requires NoQuote(outputDir)
    requires forall k :: 0 <= k < |links| ==> links[k].extensao == "doc" || links[k].extensao == "pdf"
    ensures QuoteFree(RecordFor(outputDir, titulo, links, pagina))
  {
    var rec := RecordFor(outputDir, titulo, links, pagina);
    JoinNoQuote(outputDir, Sanitize(titulo));
    FileNamesSafe(titulo, DocLink("", "", "pdf"));
    JoinNoQuote(rec.pasta, Sanitize(titulo) + ".pdf");
    forall k | 0 <= k < |links|
      ensures NoQuote(rec.documentos[k].tipo) && NoQuote(rec.documentos[k].caminho)
    {
      FileNamesSafe(titulo, links[k]);
      JoinNoQuote(rec.pasta, AttachmentName(titulo, links[k]));
    }
  }

  // ---------------------------------------------------------------------------
  // main

  /** What a run leaves behind: how the walk ended, the JSON index written (None
      when it is not written), the CSV lines written, and the files saved. */
  datatype Run = Run(status: Status<Failure>, json: Option<seq<Record>>, csv: Option<seq<string>>, saved: seq<string>)

  /** `main`, with the browser supplied and the `finally` block writing the records
      gathered in this run (see the findings). It resumes at the stored index's last
      page; the stored records themselves are not carried over, so the index
      written holds only this run's records. The CSV is written only when the walk
      completes, which happens only under `--uma-pagina`; the JSON index is written
      whenever the walk ends, by success or by failure. */
  method Scrape(site: Site, outputDir: string, stored: Stored<Record>, apenasUmaPagina: bool, bound: nat)
    returns (run: Run)
    ensures var w := Walk(VisitOf(site, outputDir), ResumePage(stored, PageOf), apenasUmaPagina, bound);
      && run.status == w.status && run.saved == w.saved
      && run.json == (if w.status.Unfinished? then None else Some(w.records))
      && run.csv == (if w.status.Completed? then Some([Header] + CsvRows(w.records)) else None)
  {
    var paginaAtual := 1;
    if stored.Parsed? && |stored.records| > 0 {
      paginaAtual := stored.records[|stored.records| - 1].pagina;
    }
    assert paginaAtual == ResumePage(stored, PageOf);
    var w := WalkPages(site, outputDir, paginaAtual, apenasUmaPagina, bound, VisitOf(site, outputDir));
    var json: Option<seq<Record>> := None;
    var csv: Option<seq<string>> := None;
    if w.status.Completed? {
      var lines := WriteCsv(w.records);
      csv := Some(lines);
      json := Some(w.records);
    }
    if !w.status.Unfinished? {
      // the `finally` block
      json := Some(w.records);
    }
    run := Run(w.status, json, csv, w.saved);
  }

  /** Under `--uma-pagina` a run visits exactly the resume page: unless that page
      fails, it completes with that page's records, all stamped with it, written to
      both files; every CSV row reads back as its fields when the output folder's
      path holds no quote. */
  lemma {:induction false} OnePageRun(site: Site, outputDir: string, stored: Stored<Record>, bound: nat)
    requires bound >= 1
    ensures var start := ResumePage(stored, PageOf);
      var w := Walk(VisitOf(site, outputDir), start, true, bound);
      && (Visit(site, outputDir, start).result.Ok? ==>
            && w.status == Completed && w.next == start + 1
            && w.records == Visit(site, outputDir, start).result.value
            && (forall k :: 0 <= k < |w.records| ==> w.records[k].pagina == start))
      && (Visit(site, outputDir, start).result.Err? ==> w.status.Failed? && w.records == [])
      && (NoQuote(outputDir) ==> forall k :: 0 <= k < |w.records| ==> QuoteFree(w.records[k]))
  {
    var start := ResumePage(stored, PageOf);
    var visit := VisitOf(site, outputDir);
    var w := Walk(visit, start, true, bound);
    assert visit(start) == Visit(site, outputDir, start);
    WalkSortedByPage(visit, PageOf, start, true, bound) by {
      VisitStamped(site, outputDir);
    }
    if Visit(site, outputDir, start).result.Ok? && NoQuote(outputDir) {
      var listed := site.listing(start).value;
      PageOutcomeRecords(site, outputDir, listed, start);
      forall k | 0 <= k < |w.records| ensures QuoteFree(w.records[k]) {
        var rows := site.detail(listed[k].href).value;
        DocumentLinksFromAnchors(rows);
        RecordForQuoteFree(outputDir, Trim(listed[k].text), FilterMap(rows, RowLink), start);
      }
    }
  }

  /** The index Scrape writes holds only the records of its own walk: when a run
      resumed from a stored index fails on its first page, the index written is
      empty, the stored records are gone from it, and the next run starts again at
      page 1. */
  lemma ResumedFailureEmptiesIndex(site: Site, outputDir: string, stored: Stored<Record>, apenasUmaPagina: bool, bound: nat)
    requires bound >= 1 && HasRecords(stored)
    requires Visit(site, outputDir, ResumePage(stored, PageOf)).result.Err?
    ensures var w := Walk(VisitOf(site, outputDir), ResumePage(stored, PageOf), apenasUmaPagina, bound);
      && w.status.Failed? && w.records == []
      && ResumePage(Parsed(w.records), PageOf) == 1
  {
    var start := ResumePage(stored, PageOf);
    assert VisitOf(site, outputDir)(start) == Visit(site, outputDir, start);
  }

  // ---------------------------------------------------------------------------
  // main as written

  /** `main` as the file has it: `browser.newPage()` reads a name that is never
      declared, so the first statement of the `try` block throws; the `catch` logs
      it, and the `finally` block throws again on `infoPath`, which is declared only
      inside the `try` block. No page is visited and no file is written. */
  function MainAsWritten(site: Site, outputDir: string, stored: Stored<Record>, apenasUmaPagina: bool, bound: nat): (r: Run)
    ensures r.status.Failed? && r.json == None && r.csv == None && r.saved == []
  {
    Run(Failed(InfoPathUndefined), None, None, [])
  }

  /** The `finally` block as written, after a walk that did get a browser: it reads
      `infoPath` out of scope and throws before writing, so a failed walk leaves no
      index; a completed walk has already written both files. */
  function FinishAsWritten(w: WalkEnd<Record, Failure>): (r: Run)
    ensures r.json.Some? <==> w.status.Completed?
    ensures r.csv.Some? <==> w.status.Completed?
    ensures r.saved == w.saved
  {
    match w.status
    case Completed => Run(Failed(InfoPathUndefined), Some(w.records), Some([Header] + CsvRows(w.records)), w.saved)
    case Failed(_) => Run(Failed(InfoPathUndefined), None, None, w.saved)
    case Unfinished => Run(Unfinished, None, None, w.saved)
  }

  /** As written, even a one-page run over a site whose page yields records writes
      nothing, where the corrected `main` (Scrape) writes those records. */
  lemma BrowserUndefinedWritesNothing(site: Site, outputDir: string, stored: Stored<Record>, bound: nat)
    requires bound >= 1
    requires Visit(site, outputDir, ResumePage(stored, PageOf)).result.Ok?
    requires |Visit(site, outputDir, ResumePage(stored, PageOf)).result.value| > 0
    ensures MainAsWritten(site, outputDir, stored, true, bound).json == None
    ensures MainAsWritten(site, outputDir, stored, true, bound).csv == None
    ensures var w := Walk(VisitOf(site, outputDir), ResumePage(stored, PageOf), true, bound);
      w.status == Completed && |w.records| > 0
  {
    OnePageRun(site, outputDir, stored, bound);
  }

  /** As written, a walk that completes a page with records and then fails on the
      next page leaves no index, so those records are lost; the corrected `finally`
      (Scrape) writes them. */
  lemma FinallyAsWrittenLosesRecords(site: Site, outputDir: string, start: int, bound: nat)
    requires bound >= 2
    requires Visit(site, outputDir, start).result.Ok? && |Visit(site, outputDir, start).result.value| > 0
    requires Visit(site, outputDir, start + 1).result.Err?
    ensures var w := Walk(VisitOf(site, outputDir), start, false, bound);
      && w.status.Failed? && w.records == Visit(site, outputDir, start).result.value
      && FinishAsWritten(w).json == None
  {
    var visit := VisitOf(site, outputDir);
    assert visit(start) == Visit(site, outputDir, start);
    assert visit(start + 1) == Visit(site, outputDir, start + 1);
    assert Walk(visit, start + 1, false, bound - 1).records == [];
  }
}
