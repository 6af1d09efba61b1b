/** `sanitizeFileName`, which both scripts define the same way: first every run of
    whitespace becomes one `_`, then every character from `< > : " / \ | ? *`
    becomes `_`. Also the model of `path.join`. */
module FileNames {
  import opened Text
  import opened Lists

  /** The characters of the character class `[<>:"/\\|?*]`. */
  predicate IsUnsafe(c: char) {
    c == '<' || c == '>' || c == ':' || c == '"' || c == '/' || c == '\\'
    || c == '|' || c == '?' || c == '*'
  }

  predicate NoUnsafe(s: string) {
    forall i :: 0 <= i < |s| ==> !IsUnsafe(s[i])
  }

  /** A name safe for the file system: no whitespace and no unsafe character. */
  predicate IsSafeName(s: string) {
    NoSpace(s) && NoUnsafe(s)
  }

  /** `s` with its leading whitespace removed; always a suffix of `s`. */
  function DropSpaces(s: string): (r: string)
    ensures |r| <= |s|
    ensures r == [] || !IsSpace(r[0])
    decreases |s|
  {
    if s != [] && IsSpace(s[0]) then DropSpaces(s[1..]) else s
  }

  /** `s.replace(/\s+/g, '_')`: each maximal run of whitespace becomes one `_`. */
  function CollapseSpaces(s: string): (r: string)
    ensures |r| <= |s|
    decreases |s|
  {
    if s == [] then []
    else if IsSpace(s[0]) then "_" + CollapseSpaces(DropSpaces(s[1..]))
    else [s[0]] + CollapseSpaces(s[1..])
  }

  /** No whitespace survives the `\s+` replacement. */
  lemma {:induction false} CollapseSpacesClean(s: string)
    ensures NoSpace(CollapseSpaces(s))
    decreases |s|
  {
    if s != [] {
      var tail := if IsSpace(s[0]) then DropSpaces(s[1..]) else s[1..];
      var head := if IsSpace(s[0]) then '_' else s[0];
      CollapseSpacesClean(tail);
      var r := CollapseSpaces(tail);
      assert CollapseSpaces(s) == [head] + r;
      assert forall i :: 1 <= i <= |r| ==> ([head] + r)[i] == r[i - 1];
    }
  }

  function SafeChar(c: char): char {
    if IsUnsafe(c) then '_' else c
  }

  /** `s.replace(/[<>:"/\\|?*]/g, '_')`. */
  function ReplaceUnsafe(s: string): (r: string)
    ensures |r| == |s|
  {
    seq(|s|, i requires 0 <= i < |s| => SafeChar(s[i]))
  }

  /** `sanitizeFileName(name)`. Its result is a safe name no longer than `name`. */
  function Sanitize(name: string): (r: string)
    ensures IsSafeName(r)
    ensures |r| <= |name|
  {
    CollapseSpacesClean(name);
    ReplaceUnsafe(CollapseSpaces(name))
  }

  /** `path.join(dir, name)`, without the normalisation of `.` and `..` segments. */
  function Join(dir: string, name: string): string {
    dir + "/" + name
  }

  /** The folder of a document, `outputDir/<sanitised title>`. */
  function DocDir(outputDir: string, titulo: string): string {
    Join(outputDir, Sanitize(titulo))
  }

  /** Safe names stay safe when put side by side. */
  lemma SafeNameAppend(a: string, b: string)
    requires IsSafeName(a) && IsSafeName(b)
    ensures IsSafeName(a + b)
  {
    assert forall i :: |a| <= i < |a + b| ==> (a + b)[i] == b[i - |a|];
  }

  /** Names made of lowercase ASCII letters, dots and underscores are safe. */
  lemma PlainNameSafe(s: string)
    requires forall i :: 0 <= i < |s| ==> 'a' <= s[i] <= 'z' || s[i] == '.' || s[i] == '_'
    ensures IsSafeName(s)
  {
  }

  /** A path made of a quote-free folder and a name without unsafe characters holds
      no quote. */
  lemma JoinNoQuote(dir: string, name: string)
    requires NoQuote(dir) && NoUnsafe(name)
    ensures NoQuote(Join(dir, name))
  {
    var j := Join(dir, name);
    assert j == dir + "/" + name;
    forall i | 0 <= i < |j| ensures j[i] != '"' {
      if i < |dir| {
        assert j[i] == dir[i];
      } else if i > |dir| {
        assert j[i] == name[i - |dir| - 1];
      }
    }
  }

  lemma {:induction false} CollapseSpacesNoSpace(s: string)
    requires NoSpace(s)
    ensures CollapseSpaces(s) == s
    decreases |s|
  {
    if s != [] {
      CollapseSpacesNoSpace(s[1..]);
    }
  }

  lemma ReplaceUnsafeSafe(s: string)
    requires NoUnsafe(s)
    ensures ReplaceUnsafe(s) == s
  {
  }

  /** Sanitising a sanitised name changes nothing. */
  lemma SanitizeIdempotent(name: string)
    ensures Sanitize(Sanitize(name)) == Sanitize(name)
  {
    var r := Sanitize(name);
    CollapseSpacesNoSpace(r);
    ReplaceUnsafeSafe(r);
  }

  /** On a name without whitespace, sanitising keeps the length and works character
      by character: an unsafe character becomes `_`, every other one is kept. */
  lemma SanitizeNoSpace(s: string)
    requires NoSpace(s)
    ensures |Sanitize(s)| == |s|
    ensures forall i :: 0 <= i < |s| ==> Sanitize(s)[i] == if IsUnsafe(s[i]) then '_' else s[i]
  {
    CollapseSpacesNoSpace(s);
  }

  /** A maximal run of whitespace (here at the front) becomes exactly one `_`. */
  lemma SanitizeRun(w: string, s: string)
    requires |w| > 0 && AllSpace(w)
    requires s == [] || !IsSpace(s[0])
    ensures Sanitize(w + s) == "_" + Sanitize(s)
  {
    CollapseRun(w, s);
    ReplaceUnsafeAppend("_", CollapseSpaces(s));
  }

  /** Sanitising splits over a concatenation unless the cut falls inside a run of
      whitespace. Together with SanitizeRun and SanitizeNoSpace this determines the
      result on every input. */
  lemma SanitizeAppend(a: string, b: string)
    requires a == [] || b == [] || !IsSpace(a[|a| - 1]) || !IsSpace(b[0])
    ensures Sanitize(a + b) == Sanitize(a) + Sanitize(b)
  {
    CollapseSpacesAppend(a, b);
    ReplaceUnsafeAppend(CollapseSpaces(a), CollapseSpaces(b));
  }

  lemma ReplaceUnsafeAppend(x: string, y: string)
    ensures ReplaceUnsafe(x + y) == ReplaceUnsafe(x) + ReplaceUnsafe(y)
  {
  }

  /** Leading whitespace of `x + y` is that of `x`, and of `y` too when `x` is all-space. */
  lemma {:induction false} DropSpacesAppend(x: string, y: string)
    ensures DropSpaces(x) != [] ==> DropSpaces(x + y) == DropSpaces(x) + y
    ensures DropSpaces(x) == [] ==> DropSpaces(x + y) == DropSpaces(y)
    decreases |x|
  {
    if x == [] {
      assert x + y == y;
    } else if IsSpace(x[0]) {
      assert (x + y)[1..] == x[1..] + y;
      DropSpacesAppend(x[1..], y);
    }
  }

  /** An all-whitespace string is dropped entirely. */
  lemma {:induction false} DropSpacesAllSpace(x: string)
    requires AllSpace(x)
    ensures DropSpaces(x) == []
    decreases |x|
  {
    if x != [] {
      DropSpacesAllSpace(x[1..]);
    }
  }

  /** A maximal run of whitespace at the front becomes one `_`. */
  lemma CollapseRun(w: string, s: string)
    requires |w| > 0 && AllSpace(w)
    requires s == [] || !IsSpace(s[0])
    ensures CollapseSpaces(w + s) == "_" + CollapseSpaces(s)
  {
    var ws := w + s;
    assert ws[0] == w[0] && ws[1..] == w[1..] + s;
    DropSpacesAllSpace(w[1..]);
    DropSpacesAppend(w[1..], s);
  }

  /** A character other than whitespace is kept as it is. */
  lemma CollapseKeep(c: char, s: string)
    requires !IsSpace(c)
    ensures CollapseSpaces([c] + s) == [c] + CollapseSpaces(s)
  {
    assert ([c] + s)[1..] == s;
  }

  lemma {:induction false} CollapseSpacesAppend(a: string, b: string)
    requires a == [] || b == [] || !IsSpace(a[|a| - 1]) || !IsSpace(b[0])
    ensures CollapseSpaces(a + b) == CollapseSpaces(a) + CollapseSpaces(b)
    decreases |a|
  {
    if a == [] {
      assert a + b == b;
    } else if !IsSpace(a[0]) {
      var t := a[1..];
      assert t == [] || t[|t| - 1] == a[|a| - 1];
      CollapseSpacesAppend(t, b);
      CollapseKeepAppend(a, b);
    } else {
      var n := LeadingSpaces(a);
      if n < |a| {
        var r := a[n..];
        assert r[|r| - 1] == a[|a| - 1];
        CollapseSpacesAppend(r, b);
        CollapseRunAppend(a, b, n);
      } else {
        assert a[..n] == a;
        CollapseSpaceAppend(a, b);
      }
    }
  }

  /** The step of CollapseSpacesAppend past a first character that is kept. */
  lemma CollapseKeepAppend(a: string, b: string)
    requires a != [] && !IsSpace(a[0])
    requires CollapseSpaces(a[1..] + b) == CollapseSpaces(a[1..]) + CollapseSpaces(b)
    ensures CollapseSpaces(a + b) == CollapseSpaces(a) + CollapseSpaces(b)
  {
    var t := a[1..];
    SplitAt(a, b, 1);
    assert a[..1] == [a[0]];
    CollapseKeep(a[0], t);
    CollapseKeep(a[0], t + b);
    AppendAssoc([a[0]], CollapseSpaces(t), CollapseSpaces(b));
  }

  /** The step of CollapseSpacesAppend past the leading run of whitespace of `a`,
      its first `n` characters, when something follows the run. */
  lemma CollapseRunAppend(a: string, b: string, n: nat)
    requires 0 < n < |a| && AllSpace(a[..n]) && !IsSpace(a[n])
    requires CollapseSpaces(a[n..] + b) == CollapseSpaces(a[n..]) + CollapseSpaces(b)
    ensures CollapseSpaces(a + b) == CollapseSpaces(a) + CollapseSpaces(b)
  {
    var w, r := a[..n], a[n..];
    SplitAt(a, b, n);
    assert r[0] == a[n];
    CollapseRun(w, r);
    CollapseRun(w, r + b);
    AppendAssoc("_", CollapseSpaces(r), CollapseSpaces(b));
  }

  /** CollapseSpacesAppend when `a` is all whitespace. */
  lemma CollapseSpaceAppend(a: string, b: string)
    requires a != [] && AllSpace(a)
    requires b == [] || !IsSpace(b[0])
    ensures CollapseSpaces(a + b) == CollapseSpaces(a) + CollapseSpaces(b)
  {
    assert a + [] == a;
    CollapseRun(a, []);
    CollapseRun(a, b);
  }

  /** Cutting `a` at `n`, alone and in front of `b`. */
  lemma SplitAt(a: string, b: string, n: nat)
    requires n <= |a|
    ensures a == a[..n] + a[n..]
    ensures a + b == a[..n] + (a[n..] + b)
  {
  }
}
