/** What both scripts' `main` do around the per-page work: find the page to resume
    from in the stored index, then visit listing pages one after the other,
    appending each page's records, until a page fails or, under `--uma-pagina`, after
    the first page. Without that flag the source's loop has no exit but an error, so
    the model walks at most `bound` pages and reports a walk that reached the bound
    as Unfinished. A page is either processed in full or fails; its records are
    appended only in the first case. */
module Walker {
  import opened Wrappers

  /** The index file as `main` finds it: absent, not parseable as JSON, or parsed
      into the stored records. */
  datatype Stored<R> = Missing | Unparseable | Parsed(records: seq<R>)

  predicate HasRecords<R>(stored: Stored<R>) {
    stored.Parsed? && |stored.records| > 0
  }

  /** The start page: the `pagina` of the last stored record itself (the page is
      visited again, not the one after it), and 1 when the index is missing,
      unparseable or empty. */
  function ResumePage<R>(stored: Stored<R>, pageOf: R -> int): (p: int)
    ensures HasRecords(stored) ==> p == pageOf(stored.records[|stored.records| - 1])
    ensures !HasRecords(stored) ==> p == 1
  {
    if HasRecords(stored) then pageOf(stored.records[|stored.records| - 1]) else 1
  }

  /** Records whose pages never decrease along the sequence. */
  predicate SortedByPage<R>(rs: seq<R>, pageOf: R -> int) {
    forall i, j :: 0 <= i < j < |rs| ==> pageOf(rs[i]) <= pageOf(rs[j])
  }

  /** On an index whose pages never decrease, the resume page is the highest stored
      page, and every stored record is on it or before it. */
  lemma ResumeAtHighestPage<R>(stored: Stored<R>, pageOf: R -> int)
    requires stored.Parsed? && SortedByPage(stored.records, pageOf)
    ensures forall r :: r in stored.records ==> pageOf(r) <= ResumePage(stored, pageOf)
  {
    var rs := stored.records;
    forall r | r in rs ensures pageOf(r) <= ResumePage(stored, pageOf) {
      var i :| 0 <= i < |rs| && rs[i] == r;
      if i < |rs| - 1 {
        assert pageOf(rs[i]) <= pageOf(rs[|rs| - 1]);
      }
    }
  }

  /** The outcome of processing one listing page: its records, or the error that
      stopped it, and the files saved to disk meanwhile either way. */
  datatype PageRun<R, E> = PageRun(result: Result<seq<R>, E>, saved: seq<string>)

  datatype Status<E> = Completed | Failed(error: E) | Unfinished

  /** Where a walk ended: how, the records it gathered, the value `paginaAtual` has
      then, and the files saved. */
  datatype WalkEnd<R, E> = WalkEnd(status: Status<E>, records: seq<R>, next: int, saved: seq<string>)

  /** `w` preceded by the records and files of pages already done. */
  function Then<R, E>(rs: seq<R>, saved: seq<string>, w: WalkEnd<R, E>): WalkEnd<R, E> {
    w.(records := rs + w.records, saved := saved + w.saved)
  }

  /** The page loop of `main`, from `page` on, for at most `bound` pages. */
  function Walk<R, E>(visit: int -> PageRun<R, E>, page: int, onePage: bool, bound: nat): (w: WalkEnd<R, E>)
    ensures page <= w.next <= page + bound
    ensures w.status.Completed? ==> onePage && w.next == page + 1
    ensures w.status.Unfinished? ==> w.next == page + bound
    decreases bound
  {
    if bound == 0 then WalkEnd(Unfinished, [], page, [])
    else
      var run := visit(page);
      match run.result
      case Err(e) => WalkEnd(Failed(e), [], page, run.saved)
      case Ok(rs) =>
        if onePage then WalkEnd(Completed, rs, page + 1, run.saved)
        else Then(rs, run.saved, Walk(visit, page + 1, onePage, bound - 1))
  }

  /** One step of the walk: a page processed in full, without the one-page flag,
      is followed by the walk from the next page. */
  lemma WalkStep<R, E>(visit: int -> PageRun<R, E>, page: int, onePage: bool, bound: nat,
                       before: seq<R>, saved: seq<string>, run: PageRun<R, E>)
    requires bound > 0 && visit(page) == run && run.result.Ok? && !onePage
    ensures Then(before, saved, Walk(visit, page, onePage, bound))
            == Then(before + run.result.value, saved + run.saved, Walk(visit, page + 1, onePage, bound - 1))
  {
    var w := Walk(visit, page + 1, onePage, bound - 1);
    assert before + (run.result.value + w.records) == (before + run.result.value) + w.records;
    assert saved + (run.saved + w.saved) == (saved + run.saved) + w.saved;
  }

  /** Nothing done before leaves a walk as it is. */
  lemma ThenNothing<R, E>(w: WalkEnd<R, E>)
    ensures Then([], [], w) == w
  {
    assert [] + w.records == w.records && [] + w.saved == w.saved;
  }

  /** The walk ends Failed on a page that fails, with that page's files saved. */
  lemma WalkFails<R, E>(visit: int -> PageRun<R, E>, page: int, onePage: bool, bound: nat,
                        before: seq<R>, saved: seq<string>, run: PageRun<R, E>)
    requires bound > 0 && visit(page) == run && run.result.Err?
    ensures Then(before, saved, Walk(visit, page, onePage, bound))
            == WalkEnd(Failed(run.result.error), before, page, saved + run.saved)
  {
    assert before + [] == before;
  }

  /** Under the one-page flag the walk ends Completed after its first page. */
  lemma WalkOnePage<R, E>(visit: int -> PageRun<R, E>, page: int, bound: nat,
                          before: seq<R>, saved: seq<string>, run: PageRun<R, E>)
    requires bound > 0 && visit(page) == run && run.result.Ok?
    ensures Then(before, saved, Walk(visit, page, true, bound))
            == WalkEnd(Completed, before + run.result.value, page + 1, saved + run.saved)
  {
  }

  /** A walk with no pages left ends Unfinished where it stands. */
  lemma WalkBound<R, E>(visit: int -> PageRun<R, E>, page: int, onePage: bool,
                        before: seq<R>, saved: seq<string>)
    ensures Then(before, saved, Walk(visit, page, onePage, 0)) == WalkEnd(Unfinished, before, page, saved)
  {
    assert before + [] == before && saved + [] == saved;
  }

  /** One turn of the page loop: when `target` is what the walk still to do from
      page `page`, with `left` pages to go, gives after what is already done, the
      turn either ends the walk (a failure, or the one page under the one-page flag)
      or moves it on to the next page. */
  lemma WalkTurn<R, E>(visit: int -> PageRun<R, E>, onePage: bool, target: WalkEnd<R, E>,
                       page: int, left: nat, before: seq<R>, saved: seq<string>, run: PageRun<R, E>)
    requires left > 0 && visit(page) == run
    requires target == Then(before, saved, Walk(visit, page, onePage, left))
    ensures run.result.Err? ==>
      target == WalkEnd(Failed(run.result.error), before, page, saved + run.saved)
    ensures run.result.Ok? && onePage ==>
      target == WalkEnd(Completed, before + run.result.value, page + 1, saved + run.saved)
    ensures run.result.Ok? && !onePage ==>
      target == Then(before + run.result.value, saved + run.saved, Walk(visit, page + 1, onePage, left - 1))
  {
    if run.result.Err? {
      WalkFails(visit, page, onePage, left, before, saved, run);
    } else if onePage {
      WalkOnePage(visit, page, left, before, saved, run);
    } else {
      WalkStep(visit, page, onePage, left, before, saved, run);
    }
  }

  /** The records of one page when it is processed in full, none otherwise. */
  function PageRecords<R, E>(visit: int -> PageRun<R, E>, page: int): seq<R> {
    match visit(page).result
    case Ok(rs) => rs
    case Err(_) => []
  }

  /** The records of the `n` pages from `page` on, page after page. */
  function PagesRecords<R, E>(visit: int -> PageRun<R, E>, page: int, n: nat): seq<R>
    decreases n
  {
    if n == 0 then [] else PageRecords(visit, page) + PagesRecords(visit, page + 1, n - 1)
  }

  /** The walk visits consecutive pages from `page` up to `next`: every page before
      `next` was processed in full and contributed all its records, in page order;
      a failure happened on page `next` itself and contributed no record; a walk
      ends Completed only under the one-page flag, after exactly one page; and a
      walk that reaches the bound has visited `bound` pages. */
  lemma {:induction false} WalkVisitsConsecutivePages<R, E>(
    visit: int -> PageRun<R, E>, page: int, onePage: bool, bound: nat)
    ensures var w := Walk(visit, page, onePage, bound);
      && page <= w.next <= page + bound
      && (forall p :: page <= p < w.next ==> visit(p).result.Ok?)
      && w.records == PagesRecords(visit, page, w.next - page)
      && (w.status.Failed? ==> visit(w.next).result == Err(w.status.error))
      && (w.status.Completed? ==> onePage && w.next == page + 1)
      && (w.status.Unfinished? ==> w.next == page + bound && (bound == 0 || !onePage))
      && (onePage ==> w.next <= page + 1)
    decreases bound
  {
    if bound > 0 {
      var run := visit(page);
      if run.result.Ok? && !onePage {
        WalkVisitsConsecutivePages(visit, page + 1, onePage, bound - 1);
        var w := Walk(visit, page + 1, onePage, bound - 1);
        assert w.next - page == (w.next - (page + 1)) + 1;
      } else if run.result.Ok? {
        assert PagesRecords(visit, page + 1, 0) == [];
      }
    }
  }

  /** Two sorted sequences, the first on or before page `mid` and the second on or
      after it, are sorted together. */
  lemma SortedConcat<R>(a: seq<R>, b: seq<R>, pageOf: R -> int, mid: int)
    requires SortedByPage(a, pageOf) && SortedByPage(b, pageOf)
    requires forall k :: 0 <= k < |a| ==> pageOf(a[k]) <= mid
    requires forall k :: 0 <= k < |b| ==> mid <= pageOf(b[k])
    ensures SortedByPage(a + b, pageOf)
  {
    var ab := a + b;
    forall i, j | 0 <= i < j < |ab| ensures pageOf(ab[i]) <= pageOf(ab[j]) {
      if j < |a| {
        assert ab[i] == a[i] && ab[j] == a[j];
      } else if i < |a| {
        assert ab[i] == a[i] && ab[j] == b[j - |a|];
      } else {
        assert ab[i] == b[i - |a|] && ab[j] == b[j - |a|];
      }
    }
  }

  /** The records of page `page` put before sorted records of the pages after it,
      up to before `next`, are sorted and lie from `page` to before `next`. */
  lemma SortedPrepend<R>(rs: seq<R>, ws: seq<R>, pageOf: R -> int, page: int, next: int)
    requires forall k :: 0 <= k < |rs| ==> pageOf(rs[k]) == page
    requires SortedByPage(ws, pageOf) && page < next
    requires forall k :: 0 <= k < |ws| ==> page + 1 <= pageOf(ws[k]) < next
    ensures SortedByPage(rs + ws, pageOf)
    ensures forall k :: 0 <= k < |rs + ws| ==> page <= pageOf((rs + ws)[k]) < next
  {
    var all := rs + ws;
    SortedConcat(rs, ws, pageOf, page);
    assert forall k :: 0 <= k < |rs| ==> all[k] == rs[k];
    assert forall k :: |rs| <= k < |all| ==> all[k] == ws[k - |rs|];
  }

  /** Every record a page yields carries that page's number. */
  ghost predicate Stamped<R, E>(visit: int -> PageRun<R, E>, pageOf: R -> int) {
    forall p, k :: 0 <= k < |PageRecords(visit, p)| ==> pageOf(PageRecords(visit, p)[k]) == p
  }

  /** When pages stamp their records, the walk's records carry pages from `page` to
      before `next`, in non-decreasing order. */
  lemma {:induction false} WalkSortedByPage<R, E>(
    visit: int -> PageRun<R, E>, pageOf: R -> int, page: int, onePage: bool, bound: nat)
    requires Stamped(visit, pageOf)
    ensures var w := Walk(visit, page, onePage, bound);
      && SortedByPage(w.records, pageOf)
      && (forall k :: 0 <= k < |w.records| ==> page <= pageOf(w.records[k]) < w.next)
    decreases bound
  {
    if bound > 0 {
      var run := visit(page);
      if run.result.Ok? {
        var rs := run.result.value;
        assert rs == PageRecords(visit, page);
        if !onePage {
          WalkSortedByPage(visit, pageOf, page + 1, onePage, bound - 1);
          var w := Walk(visit, page + 1, onePage, bound - 1);
          SortedPrepend(rs, w.records, pageOf, page, w.next);
        }
      }
    }
  }
}
