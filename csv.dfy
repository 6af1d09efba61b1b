/** The CSV text both scripts write: each row is six fields joined with `,` and ended
    by a line feed. A field is written either quoted (`"…"`) or bare. Only the title
    has its quotes doubled, as rule 7 of section 2 of RFC 4180 asks; the other quoted
    fields are written between quotes exactly as they are. The reader below follows
    the grammar of that section (with a line feed as the line break) and is the
    reference the written rows are checked against. */
module Csv {
  import opened Wrappers
  import opened Text
  import opened Lists

  /** The header row, `Título,Pasta,PDF,Tipo do Arquivo,Caminho do Arquivo,Página`. */
  const Header: string :=
    "T\U{ED}tulo,Pasta,PDF,Tipo do Arquivo,Caminho do Arquivo,P\U{E1}gina\n"

  /** `s.replace(/"/g, '""')`: every quote doubled. */
  function EscapeQuotes(s: string): (r: string)
    ensures |r| >= |s|
  {
    if s == [] then []
    else (if s[0] == '"' then "\"\"" else [s[0]]) + EscapeQuotes(s[1..])
  }

  /** The template literal `"${s}"`: `s` between quotes, as it is. */
  function Quote(s: string): string {
    "\"" + s + "\""
  }

  /** `Array.prototype.join(',')`. */
  function JoinComma(parts: seq<string>): string {
    if |parts| == 0 then ""
    else if |parts| == 1 then parts[0]
    else parts[0] + "," + JoinComma(parts[1..])
  }

  /** The characters a bare (unquoted) field may hold: no quote, comma or line break. */
  predicate BareSafe(s: string) {
    forall i :: 0 <= i < |s| ==> s[i] != '"' && s[i] != ',' && s[i] != '\n' && s[i] != '\r'
  }

  /** Reads the rest of a quoted field, just after its opening quote: `""` stands for
      one quote and a lone quote closes the field. Gives the field's value and the
      text after the closing quote, or None when the field is never closed. */
  function ParseQuoted(s: string): (r: Option<(string, string)>)
    ensures r.Some? ==> |r.value.1| < |s|
    decreases |s|
  {
    if s == [] then None
    else if s[0] == '"' then
      if |s| > 1 && s[1] == '"' then
        match ParseQuoted(s[2..])
        case None => None
        case Some((v, rest)) => Some(("\"" + v, rest))
      else Some(([], s[1..]))
    else
      match ParseQuoted(s[1..])
      case None => None
      case Some((v, rest)) => Some(([s[0]] + v, rest))
  }

  /** Reads a bare field up to the next comma or line feed; a quote or carriage
      return inside it makes the row malformed. */
  function ParseBare(s: string): (r: Option<(string, string)>)
    ensures r.Some? ==> |r.value.1| <= |s|
    decreases |s|
  {
    if s == [] || s[0] == ',' || s[0] == '\n' then Some(([], s))
    else if s[0] == '"' || s[0] == '\r' then None
    else
      match ParseBare(s[1..])
      case None => None
      case Some((v, rest)) => Some(([s[0]] + v, rest))
  }

  function ParseField(s: string): (r: Option<(string, string)>)
    ensures r.Some? ==> |r.value.1| <= |s|
  {
    if s != [] && s[0] == '"' then ParseQuoted(s[1..]) else ParseBare(s)
  }

  /** Reads one row, fields separated by commas and ended by a line feed, into the
      values of its fields; None when the row is malformed. */
  function ParseRow(s: string): Option<seq<string>>
    decreases |s|
  {
    match ParseField(s)
    case None => None
    case Some((v, rest)) =>
      if rest == "\n" then Some([v])
      else if rest != [] && rest[0] == ',' then
        match ParseRow(rest[1..])
        case None => None
        case Some(vs) => Some([v] + vs)
      else None
  }

  /** `part` is how the value `v` can stand in a row and be read back: quoted with
      its quotes doubled, or bare. */
  predicate Encodes(part: string, v: string) {
    part == Quote(EscapeQuotes(v)) || (part == v && BareSafe(v))
  }

  /** Doubling the quotes changes nothing in a value that has none, so quoting such
      a value without escaping it is still a correct encoding. */
  lemma {:induction false} EscapeNoQuote(s: string)
    requires NoQuote(s)
    ensures EscapeQuotes(s) == s
  {
    if s != [] {
      EscapeNoQuote(s[1..]);
    }
  }

  /** A quoted value with its quotes doubled reads back as the value (rule 7 of
      section 2 of RFC 4180), provided no quote follows the closing one. */
  lemma {:induction false} QuotedRoundTrip(v: string, rest: string)
    requires rest == [] || rest[0] != '"'
    ensures ParseQuoted(EscapeQuotes(v) + "\"" + rest) == Some((v, rest))
  {
    if v == [] {
      assert EscapeQuotes(v) + "\"" + rest == "\"" + rest;
    } else {
      var h := if v[0] == '"' then "\"\"" else [v[0]];
      var x := EscapeQuotes(v[1..]) + "\"" + rest;
      QuotedRoundTrip(v[1..], rest);
      assert EscapeQuotes(v) == h + EscapeQuotes(v[1..]);
      AppendAssoc(h, EscapeQuotes(v[1..]), "\"");
      AppendAssoc(h, EscapeQuotes(v[1..]) + "\"", rest);
      ConsSplit(v);
      if v[0] == '"' {
        QuotedPairStep(x, v[1..], rest);
      } else {
        QuotedCharStep(v[0], x, v[1..], rest);
      }
    }
  }

  /** A doubled quote inside a quoted field reads as one quote. */
  lemma QuotedPairStep(x: string, v: string, rest: string)
    requires ParseQuoted(x) == Some((v, rest))
    ensures ParseQuoted("\"\"" + x) == Some(("\"" + v, rest))
  {
    assert ("\"\"" + x)[2..] == x;
  }

  /** Any other character inside a quoted field reads as itself. */
  lemma QuotedCharStep(c: char, x: string, v: string, rest: string)
    requires c != '"' && ParseQuoted(x) == Some((v, rest))
    ensures ParseQuoted([c] + x) == Some(([c] + v, rest))
  {
    assert ([c] + x)[1..] == x;
  }

  /** `h` in front of `x + y`, and what follows `h`. */
  lemma PrefixSplit(h: string, x: string, y: string)
    ensures (h + (x + y))[..|h|] == h && (h + (x + y))[|h|..] == x + y
  {
  }

  /** A non-empty string is its first character followed by the rest. */
  lemma ConsSplit(v: string)
    requires v != []
    ensures [v[0]] + v[1..] == v
    ensures "\"" + v[1..] == v <== v[0] == '"'
  {
  }

  lemma {:induction false} BareRoundTrip(v: string, rest: string)
    requires BareSafe(v)
    requires rest == [] || rest[0] == ',' || rest[0] == '\n'
    ensures ParseBare(v + rest) == Some((v, rest))
  {
    if v == [] {
      assert v + rest == rest;
    } else {
      AppendAssoc([v[0]], v[1..], rest);
      PrefixSplit([v[0]], v[1..], rest);
      ConsSplit(v);
      assert BareSafe(v[1..]);
      BareRoundTrip(v[1..], rest);
    }
  }

  lemma FieldRoundTrip(part: string, v: string, rest: string)
    requires Encodes(part, v)
    requires rest == [] || rest[0] == ',' || rest[0] == '\n'
    ensures ParseField(part + rest) == Some((v, rest))
  {
    if part == Quote(EscapeQuotes(v)) {
      assert (part + rest)[1..] == EscapeQuotes(v) + "\"" + rest;
      QuotedRoundTrip(v, rest);
    } else {
      assert part == v && BareSafe(v);
      if v != [] {
        assert (part + rest)[0] == v[0];
      }
      BareRoundTrip(v, rest);
    }
  }

  /** A row built by joining encoded fields with commas and ending it with a line
      feed reads back as exactly those values, one per field. */
  lemma {:induction false} RowRoundTrip(parts: seq<string>, values: seq<string>)
    requires |parts| == |values| >= 1
    requires forall i :: 0 <= i < |parts| ==> Encodes(parts[i], values[i])
    ensures ParseRow(JoinComma(parts) + "\n") == Some(values)
    decreases |parts|
  {
    if |parts| == 1 {
      FieldRoundTrip(parts[0], values[0], "\n");
      assert values == [values[0]];
    } else {
      var tail := JoinComma(parts[1..]) + "\n";
      assert JoinComma(parts) + "\n" == parts[0] + ("," + tail);
      FieldRoundTrip(parts[0], values[0], "," + tail);
      assert ("," + tail)[1..] == tail;
      RowRoundTrip(parts[1..], values[1..]);
      assert [values[0]] + values[1..] == values;
    }
  }

  /** The fields written between quotes without their quotes doubled are read back
      as written only when they hold no quote. Holding one, the row can become
      unreadable: the one-field row `"""` written for the value `"` is malformed. */
  lemma LoneQuoteUnreadable()
    ensures ParseRow(Quote("\"") + "\n") == None
  {
    var s := Quote("\"") + "\n";
    assert s == ['"', '"', '"', '\n'];
    assert s[1..][2..] == "\n";
    assert ParseQuoted("\n"[1..]) == None;
  }

  /** ... or it can read back as other fields: the value `a","b` written between
      quotes as it is reads back as the two fields `a` and `b`, while with its quotes
      doubled it reads back as itself. */
  lemma UnescapedQuoteSplitsField()
    ensures ParseRow(Quote("a\",\"b") + "\n") == Some(["a", "b"])
    ensures ParseRow(Quote(EscapeQuotes("a\",\"b")) + "\n") == Some(["a\",\"b"])
  {
    var s := Quote("a\",\"b") + "\n";
    var tail := "\"b\"\n";
    assert s == "\"a\",\"b\"\n";
    SplitFieldHead(s, tail);
    SplitFieldTail(tail);
    assert ("," + tail)[1..] == tail && "," + tail != "\n";
    assert ["a"] + ["b"] == ["a", "b"];
    RowRoundTrip([Quote(EscapeQuotes("a\",\"b"))], ["a\",\"b"]);
  }

  /** The first field of the row `"a","b"` is `a`, and the rest starts with a comma. */
  lemma SplitFieldHead(s: string, tail: string)
    requires s == "\"a\",\"b\"\n" && tail == "\"b\"\n"
    ensures ParseField(s) == Some(("a", "," + tail))
  {
    var mid := "\",\"b\"\n";
    assert ParseQuoted(mid) == Some(("", "," + tail)) by { assert mid[1..] == "," + tail; }
    QuotedCharStep('a', mid, "", "," + tail);
    assert s[1..] == ['a'] + mid;
    assert ['a'] + "" == "a";
  }

  /** The rest of that row, `"b"`, is the one field `b`. */
  lemma SplitFieldTail(tail: string)
    requires tail == "\"b\"\n"
    ensures ParseRow(tail) == Some(["b"])
  {
    var close := "\"\n";
    assert ParseQuoted(close) == Some(("", "\n")) by { assert close[1..] == "\n"; }
    QuotedCharStep('b', close, "", "\n");
    assert tail[1..] == ['b'] + close;
    assert ['b'] + "" == "b";
  }
}
