/** Keeping some elements of a list and transforming them, in order: the shape of
    both row filters, which walk the rows the page shows and push an entry for each
    row that passes a test. */
module Lists {
  import opened Wrappers

  /** Concatenation regroups freely: the one associativity step the proofs about
      file names, CSV fields and CSV lines call on. */
  lemma AppendAssoc<T>(a: seq<T>, b: seq<T>, c: seq<T>)
    ensures a + b + c == a + (b + c)
  {
  }

  /** The values `f` yields, in the order of `s`, skipping the elements it rejects. */
  function FilterMap<T, U>(s: seq<T>, f: T -> Option<U>): (r: seq<U>)
    ensures |r| <= |s|
  {
    if s == [] then []
    else FilterMap(s[..|s| - 1], f) + (match f(s[|s| - 1]) case Some(u) => [u] case None => [])
  }

  /** The positions of the elements `f` accepts, in increasing order. */
  function Kept<T, U>(s: seq<T>, f: T -> Option<U>): seq<nat> {
    if s == [] then []
    else Kept(s[..|s| - 1], f) + (if f(s[|s| - 1]).Some? then [|s| - 1] else [])
  }

  /** FilterMap has one entry per accepted element and none other: its `k`-th entry
      is what `f` gives for the `k`-th accepted element, and those elements come in
      the order of `s`. */
  lemma {:induction false} FilterMapKept<T, U>(s: seq<T>, f: T -> Option<U>)
    ensures |Kept(s, f)| == |FilterMap(s, f)|
    ensures forall k :: 0 <= k < |Kept(s, f)| ==>
              Kept(s, f)[k] < |s| && f(s[Kept(s, f)[k]]) == Some(FilterMap(s, f)[k])
    ensures forall k, l :: 0 <= k < l < |Kept(s, f)| ==> Kept(s, f)[k] < Kept(s, f)[l]
    ensures forall j :: 0 <= j < |s| ==> (f(s[j]).Some? <==> j in Kept(s, f))
  {
    if s != [] {
      var init := s[..|s| - 1];
      FilterMapKept(init, f);
      KeptStep(s, f, Kept(init, f), FilterMap(init, f), Kept(s, f), FilterMap(s, f));
    }
  }

  /** The inductive step of FilterMapKept, on the sequences alone. */
  lemma KeptStep<T, U>(s: seq<T>, f: T -> Option<U>, ki: seq<nat>, fi: seq<U>, ks: seq<nat>, fs: seq<U>)
    requires s != []
    requires |ki| == |fi|
    requires forall k :: 0 <= k < |ki| ==> ki[k] < |s| - 1 && f(s[ki[k]]) == Some(fi[k])
    requires forall k, l :: 0 <= k < l < |ki| ==> ki[k] < ki[l]
    requires forall j :: 0 <= j < |s| - 1 ==> (f(s[j]).Some? <==> j in ki)
    requires ks == ki + (if f(s[|s| - 1]).Some? then [|s| - 1] else [])
    requires fs == fi + (match f(s[|s| - 1]) case Some(u) => [u] case None => [])
    ensures |ks| == |fs|
    ensures forall k :: 0 <= k < |ks| ==> ks[k] < |s| && f(s[ks[k]]) == Some(fs[k])
    ensures forall k, l :: 0 <= k < l < |ks| ==> ks[k] < ks[l]
    ensures forall j :: 0 <= j < |s| ==> (f(s[j]).Some? <==> j in ks)
  {
  }
}
