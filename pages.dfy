/** The shape both `processarPagina` functions share: the listed documents are
    processed one after the other; each either yields its record or fails, and
    writes some files meanwhile. The first failure ends the page with that failure,
    and the records gathered before it are dropped with it; the files already
    written stay on disk. */
module Pages {
  import opened Wrappers
  import opened Walker

  /** Processing one document: its record, or the error that ends the page, and the
      files written meanwhile. */
  datatype DocRun<R, E> = DocRun(result: Result<R, E>, saved: seq<string>)

  /** The documents of a page processed in order by `doc`, up to the first failure. */
  function Process<D, R, E>(docs: seq<D>, doc: D -> DocRun<R, E>): (r: PageRun<R, E>)
    ensures r.result.Ok? ==> |r.result.value| == |docs|
  {
    if docs == [] then PageRun(Ok([]), [])
    else
      var prev := Process(docs[..|docs| - 1], doc);
      if prev.result.Err? then prev
      else
        var d := doc(docs[|docs| - 1]);
        match d.result
        case Err(e) => PageRun(Err(e), prev.saved + d.saved)
        case Ok(r) => PageRun(Ok(prev.result.value + [r]), prev.saved + d.saved)
  }

  /** Once a document fails, the page's outcome is that failure. */
  lemma {:induction false} ProcessErrPersists<D, R, E>(docs: seq<D>, doc: D -> DocRun<R, E>, i: nat)
    requires i <= |docs| && Process(docs[..i], doc).result.Err?
    ensures Process(docs, doc) == Process(docs[..i], doc)
    decreases |docs|
  {
    if i == |docs| {
      assert docs[..i] == docs;
    } else {
      var init := docs[..|docs| - 1];
      assert init[..i] == docs[..i];
      ProcessErrPersists(init, doc, i);
    }
  }

  /** One turn of the document loop: with the documents before `docs[i]` processed
      in full into `rs`, having written `saved`, a failure of `docs[i]` is the
      page's outcome, and a success appends its record. */
  lemma ProcessTurn<D, R, E>(docs: seq<D>, doc: D -> DocRun<R, E>, i: nat, rs: seq<R>, saved: seq<string>, d: DocRun<R, E>)
    requires i < |docs| && doc(docs[i]) == d
    requires Process(docs[..i], doc) == PageRun(Ok(rs), saved)
    ensures d.result.Err? ==> Process(docs, doc) == PageRun(Err(d.result.error), saved + d.saved)
    ensures d.result.Ok? ==> Process(docs[..i + 1], doc) == PageRun(Ok(rs + [d.result.value]), saved + d.saved)
  {
    assert docs[..i + 1][..i] == docs[..i];
    if d.result.Err? {
      ProcessErrPersists(docs, doc, i + 1);
    }
  }

  /** A page is processed in full exactly when every one of its documents is. */
  lemma {:induction false} ProcessOk<D, R, E>(docs: seq<D>, doc: D -> DocRun<R, E>)
    ensures Process(docs, doc).result.Ok? <==> forall k :: 0 <= k < |docs| ==> doc(docs[k]).result.Ok?
  {
    if docs != [] {
      var init := docs[..|docs| - 1];
      ProcessOk(init, doc);
      assert forall k :: 0 <= k < |init| ==> init[k] == docs[k];
    }
  }

  /** A page processed in full yields, in order, the record of each document. */
  lemma {:induction false} ProcessRecords<D, R, E>(docs: seq<D>, doc: D -> DocRun<R, E>)
    requires Process(docs, doc).result.Ok?
    ensures var rs := Process(docs, doc).result.value;
      && |rs| == |docs|
      && forall k :: 0 <= k < |docs| ==> doc(docs[k]).result.Ok? && rs[k] == doc(docs[k]).result.value
  {
    if docs != [] {
      var init := docs[..|docs| - 1];
      ProcessRecords(init, doc);
      var last := doc(docs[|docs| - 1]);
      assert last.result.Ok?;
      SnocPointwise(init, docs, Process(init, doc).result.value, Process(docs, doc).result.value, doc);
    }
  }

  /** The inductive step of ProcessRecords, on the sequences alone. */
  lemma SnocPointwise<D, R, E>(init: seq<D>, docs: seq<D>, prs: seq<R>, rs: seq<R>, doc: D -> DocRun<R, E>)
    requires docs != [] && init == docs[..|docs| - 1] && |prs| == |init|
    requires forall k :: 0 <= k < |init| ==> doc(init[k]).result.Ok? && prs[k] == doc(init[k]).result.value
    requires doc(docs[|docs| - 1]).result.Ok?
    requires rs == prs + [doc(docs[|docs| - 1]).result.value]
    ensures |rs| == |docs|
    ensures forall k :: 0 <= k < |docs| ==> doc(docs[k]).result.Ok? && rs[k] == doc(docs[k]).result.value
  {
    forall k | 0 <= k < |docs|
      ensures doc(docs[k]).result.Ok? && rs[k] == doc(docs[k]).result.value
    {
      if k < |init| {
        assert init[k] == docs[k] && rs[k] == prs[k];
      }
    }
  }

  /** Two ways of processing documents that agree on every document's result give
      the same page result, whatever files each writes. */
  lemma {:induction false} ProcessResultsAgree<D, R, E>(docs: seq<D>, doc: D -> DocRun<R, E>, other: D -> DocRun<R, E>)
    requires forall k :: 0 <= k < |docs| ==> doc(docs[k]).result == other(docs[k]).result
    ensures Process(docs, doc).result == Process(docs, other).result
  {
    if docs != [] {
      var init := docs[..|docs| - 1];
      assert forall k :: 0 <= k < |init| ==> init[k] == docs[k];
      ProcessResultsAgree(init, doc, other);
    }
  }
}
