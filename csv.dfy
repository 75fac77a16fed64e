/**
 * The CSV export of the data viewer: a header line of the first row's keys, then one
 * line per row with each field quoted and its quotes doubled, the escaping of
 * section 2 of RFC 4180 (the header itself is not quoted). A reader for such lines is
 * given to show that every field, and the number of fields, can be recovered.
 */
module Csv {
  import opened Wrappers
  import opened Strings
  import opened Table

  /** `s.replace(/"/g, '""')`: every double quote doubled. */
  function Escape(s: string): (r: string)
    ensures |r| >= |s|
    ensures '"' !in s ==> r == s
  {
    if s == [] then []
    else (if s[0] == '"' then "\"\"" else [s[0]]) + Escape(s[1..])
  }

  /** One field: empty for a null or undefined value, else the quoted, escaped `String(v)`. */
  function EncodeField(v: Option<Cell>): (f: string)
    ensures f == "" <==> v.None? || v == Some(Null)
    ensures f != "" ==> |f| >= 2 && f[0] == '"' && f[|f| - 1] == '"'
  {
    match v
    case None => ""
    case Some(Null) => ""
    case Some(c) => "\"" + Escape(CellString(c)) + "\""
  }

  /** The fields of one row, one per header column. */
  function RowFields(header: seq<string>, r: Row): (fs: seq<string>)
    ensures |fs| == |header|
    ensures forall i :: 0 <= i < |header| ==> fs[i] == EncodeField(Lookup(r, header[i]))
  {
    seq(|header|, i requires 0 <= i < |header| => EncodeField(Lookup(r, header[i])))
  }

  function RowLine(header: seq<string>, r: Row): (l: string)
    ensures header == [] ==> l == ""
    ensures header != [] ==> |l| == TotalLength(RowFields(header, r)) + |header| - 1
    ensures header != [] ==> l[..|EncodeField(Lookup(r, header[0]))|] == EncodeField(Lookup(r, header[0]))
  {
    JoinLength(RowFields(header, r), ",");
    Join(RowFields(header, r), ",")
  }

  /** One line per row, in order. */
  function RowLines(header: seq<string>, rows: seq<Row>): seq<string> {
    seq(|rows|, i requires 0 <= i < |rows| => RowLine(header, rows[i]))
  }

  /**
   * The lines of the export: none for no rows; otherwise the header line (the first
   * row's keys joined by commas) and then exactly one line per row, in order.
   */
  function CsvLines(rows: seq<Row>): (lines: seq<string>)
    ensures rows == [] ==> lines == []
    ensures rows != [] ==> |lines| == |rows| + 1
    ensures rows != [] ==> lines[0] == Join(Keys(rows[0]), ",")
    ensures rows != [] ==> forall i :: 0 <= i < |rows| ==> lines[i + 1] == RowLine(Keys(rows[0]), rows[i])
  {
    if rows == [] then [] else [Join(Keys(rows[0]), ",")] + RowLines(Keys(rows[0]), rows)
  }

  /** `exportCSV` up to the download: nothing for no rows, else the lines joined by newlines. */
  method ExportCsv(rows: seq<Row>) returns (csv: Option<string>)
    ensures rows == [] <==> csv.None?
    ensures csv.Some? ==> csv.value == Join(CsvLines(rows), "\n")
  {
    if |rows| == 0 {
      return None;
    }
    var header := Keys(rows[0]);
    ghost var body := RowLines(header, rows);
    var lines := [Join(header, ",")];
    var i := 0;
    while i < |rows|
      invariant 0 <= i <= |rows|
      invariant lines == [Join(header, ",")] + body[..i]
    {
      var line := RowLine(header, rows[i]);
      assert body[..i + 1] == body[..i] + [line];
      lines := lines + [line];
      i := i + 1;
    }
    assert body[..i] == body;
    csv := Some(Join(lines, "\n"));
  }

  // ---------------------------------------------------------------------------
  // Reading a line back
  // ---------------------------------------------------------------------------

  /**
   * The rest of a quoted field after its opening quote: the content with doubled quotes
   * undoubled, and what follows the closing quote; `None` when the quote is never closed.
   */
  function ParseQuoted(s: string): (r: Option<(string, string)>)
    ensures r.Some? ==> |r.value.1| < |s|
    decreases |s|
  {
    if s == [] then None
    else if s[0] == '"' then
      if |s| >= 2 && s[1] == '"' then
        match ParseQuoted(s[2..])
        case None => None
        case Some((v, rest)) => Some(("\"" + v, rest))
      else Some(("", s[1..]))
    else
      match ParseQuoted(s[1..])
      case None => None
      case Some((v, rest)) => Some(([s[0]] + v, rest))
  }

  /** The length of an unquoted field: everything up to the next comma. */
  function UnquotedLength(s: string): (n: nat)
    ensures n <= |s|
    ensures n < |s| ==> s[n] == ','
    ensures forall i :: 0 <= i < n ==> s[i] != ','
  {
    if s == [] || s[0] == ',' then 0 else 1 + UnquotedLength(s[1..])
  }

  /**
   * One field and what follows it. A quoted field yields its content; an unquoted field
   * yields its text, or `None` when it is empty (an exported null or undefined).
   */
  function ParseField(s: string): (r: Option<(Option<string>, string)>)
    ensures r.Some? ==> |r.value.1| <= |s|
  {
    if s != [] && s[0] == '"' then
      match ParseQuoted(s[1..])
      case None => None
      case Some((v, rest)) => Some((Some(v), rest))
    else
      var n := UnquotedLength(s);
      Some((if n == 0 then None else Some(s[..n]), s[n..]))
  }

  /** The fields of a line separated by commas; `None` for a malformed line. */
  function ParseFields(s: string): Option<seq<Option<string>>>
    decreases |s|
  {
    match ParseField(s)
    case None => None
    case Some((f, rest)) =>
      if rest == [] then Some([f])
      else if rest[0] != ',' then None
      else match ParseFields(rest[1..])
        case None => None
        case Some(fs) => Some([f] + fs)
  }

  /** What a reader recovers from a field: nothing for null or undefined, else `String(v)`. */
  function FieldValue(v: Option<Cell>): Option<string> {
    match v
    case None => None
    case Some(Null) => None
    case Some(c) => Some(CellString(c))
  }

  /** Undoubling the quotes of an escaped text and dropping the closing quote gives the text back. */
  lemma {:induction false} QuotedRoundTrip(v: string, rest: string)
    requires rest == [] || rest[0] != '"'
    ensures ParseQuoted(Escape(v) + "\"" + rest) == Some((v, rest))
  {
    if v == [] {
      var s := Escape(v) + "\"" + rest;
      assert s == "\"" + rest;
      assert s[0] == '"' && s[1..] == rest;
    } else {
      QuotedRoundTrip(v[1..], rest);
      QuotedStep(v, rest);
    }
  }

  /** One character of the text, read back from its escaped form. */
  lemma {:induction false} QuotedStep(v: string, rest: string)
    requires v != [] && (rest == [] || rest[0] != '"')
    requires ParseQuoted(Escape(v[1..]) + "\"" + rest) == Some((v[1..], rest))
    ensures ParseQuoted(Escape(v) + "\"" + rest) == Some((v, rest))
  {
    var tail := Escape(v[1..]) + "\"" + rest;
    var s := Escape(v) + "\"" + rest;
    if v[0] == '"' {
      assert ParseQuoted(s) == Some(("\"" + v[1..], rest)) by {
        EscapedQuoteFirst(v, rest);
        DoubledQuoteStep(tail, v[1..], rest);
      }
      assert "\"" + v[1..] == v;
    } else {
      assert ParseQuoted(s) == Some(([v[0]] + v[1..], rest)) by {
        EscapedPlainFirst(v, rest);
        PlainStep(v[0], tail, v[1..], rest);
      }
      assert [v[0]] + v[1..] == v;
    }
  }

  lemma {:induction false} EscapedQuoteFirst(v: string, rest: string)
    requires v != [] && v[0] == '"'
    ensures Escape(v) + "\"" + rest == "\"\"" + (Escape(v[1..]) + "\"" + rest)
  {
    assert Escape(v) == "\"\"" + Escape(v[1..]);
  }

  lemma {:induction false} EscapedPlainFirst(v: string, rest: string)
    requires v != [] && v[0] != '"'
    ensures Escape(v) + "\"" + rest == [v[0]] + (Escape(v[1..]) + "\"" + rest)
  {
    assert Escape(v) == [v[0]] + Escape(v[1..]);
  }

  /** A doubled quote is read as one quote of the content. */
  lemma {:induction false} DoubledQuoteStep(tail: string, v: string, rest: string)
    requires ParseQuoted(tail) == Some((v, rest))
    ensures ParseQuoted("\"\"" + tail) == Some(("\"" + v, rest))
  {
    var s := "\"\"" + tail;
    assert s[0] == '"' && s[1] == '"' && s[2..] == tail;
  }

  /** Any other character is read as itself. */
  lemma {:induction false} PlainStep(c: char, tail: string, v: string, rest: string)
    requires c != '"' && ParseQuoted(tail) == Some((v, rest))
    ensures ParseQuoted([c] + tail) == Some(([c] + v, rest))
  {
    var s := [c] + tail;
    assert s[0] == c && s[1..] == tail;
  }

  /** An encoded field followed by a comma or the end of the line reads back as the value. */
  lemma {:induction false} FieldRoundTrip(v: Option<Cell>, rest: string)
    requires rest == [] || rest[0] == ','
    ensures ParseField(EncodeField(v) + rest) == Some((FieldValue(v), rest))
  {
    if v.None? || v == Some(Null) {
      assert EncodeField(v) + rest == rest;
    } else {
      QuotedFieldRoundTrip(CellString(v.value), rest);
    }
  }

  /** A quoted, escaped text followed by a comma or the end of the line reads back as that text. */
  lemma QuotedFieldRoundTrip(body: string, rest: string)
    requires rest == [] || rest[0] == ','
    ensures ParseField("\"" + Escape(body) + "\"" + rest) == Some((Some(body), rest))
  {
    var s := "\"" + Escape(body) + "\"" + rest;
    QuotedRoundTrip(body, rest);
    assert s[0] == '"' && s[1..] == Escape(body) + "\"" + rest;
  }

  /** The encoded fields of a list of values. */
  function EncodeAll(vs: seq<Option<Cell>>): (fs: seq<string>)
    ensures |fs| == |vs|
    ensures forall i :: 0 <= i < |vs| ==> fs[i] == EncodeField(vs[i])
  {
    seq(|vs|, i requires 0 <= i < |vs| => EncodeField(vs[i]))
  }

  /** What a reader recovers from each of a list of values. */
  function FieldValues(vs: seq<Option<Cell>>): (r: seq<Option<string>>)
    ensures |r| == |vs|
    ensures forall i :: 0 <= i < |vs| ==> r[i] == FieldValue(vs[i])
  {
    seq(|vs|, i requires 0 <= i < |vs| => FieldValue(vs[i]))
  }

  lemma {:induction false} FieldValuesCons(vs: seq<Option<Cell>>)
    requires vs != []
    ensures FieldValues(vs) == [FieldValue(vs[0])] + FieldValues(vs[1..])
  {
  }

  /** A field followed by a comma and a readable line reads as that field and the line's fields. */
  lemma {:induction false} ParseFieldsStep(s: string, f: Option<string>, t: string, fs: seq<Option<string>>)
    requires ParseField(s) == Some((f, "," + t))
    requires ParseFields(t) == Some(fs)
    ensures ParseFields(s) == Some([f] + fs)
  {
    assert ("," + t)[1..] == t;
  }

  /** A join of several parts is the first part, the separator, and the join of the rest. */
  lemma JoinCons(parts: seq<string>, sep: string)
    requires |parts| > 1
    ensures Join(parts, sep) == parts[0] + (sep + Join(parts[1..], sep))
  {
    assert parts[0] + sep + Join(parts[1..], sep) == parts[0] + (sep + Join(parts[1..], sep));
  }

  /** Joining encoded fields with commas and reading the line back gives every value, in order. */
  lemma {:induction false} LineRoundTrip(vs: seq<Option<Cell>>)
    requires vs != []
    ensures ParseFields(Join(EncodeAll(vs), ",")) == Some(FieldValues(vs))
    decreases |vs|
  {
    var fs := EncodeAll(vs);
    var line := Join(fs, ",");
    if |vs| == 1 {
      assert ParseFields(line) == Some([FieldValue(vs[0])]) by {
        FieldRoundTrip(vs[0], []);
        assert line == fs[0] + [];
      }
      assert FieldValues(vs) == [FieldValue(vs[0])];
    } else {
      var tailLine := Join(EncodeAll(vs[1..]), ",");
      assert line == fs[0] + ("," + tailLine) by {
        JoinCons(fs, ",");
        assert fs[1..] == EncodeAll(vs[1..]);
      }
      assert ParseField(line) == Some((FieldValue(vs[0]), "," + tailLine)) by {
        FieldRoundTrip(vs[0], "," + tailLine);
      }
      assert ParseFields(line) == Some([FieldValue(vs[0])] + FieldValues(vs[1..])) by {
        LineRoundTrip(vs[1..]);
        ParseFieldsStep(line, FieldValue(vs[0]), tailLine, FieldValues(vs[1..]));
      }
      FieldValuesCons(vs);
    }
  }

  /**
   * Each exported row line holds one field per header column, and reading it back
   * recovers, column by column, `String(v)` or nothing for a null or undefined value.
   */
  lemma {:induction false} RowLineRoundTrip(header: seq<string>, r: Row)
    requires header != []
    ensures ParseFields(RowLine(header, r))
         == Some(seq(|header|, i requires 0 <= i < |header| => FieldValue(Lookup(r, header[i]))))
  {
    var vs := seq(|header|, i requires 0 <= i < |header| => Lookup(r, header[i]));
    assert RowFields(header, r) == EncodeAll(vs);
    LineRoundTrip(vs);
    assert FieldValues(vs) == seq(|header|, i requires 0 <= i < |header| => FieldValue(Lookup(r, header[i])));
  }

  // ---------------------------------------------------------------------------
  // The header line
  // ---------------------------------------------------------------------------

  /** The number of commas in a text. */
  function CommaCount(s: string): nat
    decreases |s|
  {
    if s == [] then 0 else (if s[0] == ',' then 1 else 0) + CommaCount(s[1..])
  }

  /** The commas in all the names of a header. */
  function NameCommas(names: seq<string>): nat
    decreases |names|
  {
    if names == [] then 0 else CommaCount(names[0]) + NameCommas(names[1..])
  }

  lemma {:induction false} CommaCountAppend(a: string, b: string)
    ensures CommaCount(a + b) == CommaCount(a) + CommaCount(b)
    decreases |a|
  {
    if a == [] {
      assert a + b == b;
    } else {
      assert (a + b)[1..] == a[1..] + b;
      CommaCountAppend(a[1..], b);
    }
  }

  /** Skipping a comma-free prefix skips no comma. */
  lemma {:induction false} CommaCountSkip(s: string, n: nat)
    requires n <= |s| && forall i :: 0 <= i < n ==> s[i] != ','
    ensures CommaCount(s) == CommaCount(s[n..])
    decreases n
  {
    if n > 0 {
      CommaCountSkip(s[1..], n - 1);
      assert s[1..][n - 1..] == s[n..];
    }
  }

  /** Joining names with commas adds one comma between each two names. */
  lemma {:induction false} JoinCommas(names: seq<string>)
    requires names != []
    ensures CommaCount(Join(names, ",")) == |names| - 1 + NameCommas(names)
    ensures (forall i :: 0 <= i < |names| ==> '"' !in names[i]) ==> '"' !in Join(names, ",")
    decreases |names|
  {
    if |names| > 1 {
      var tail := Join(names[1..], ",");
      JoinCommas(names[1..]);
      assert Join(names, ",") == names[0] + ("," + tail);
      CommaCountAppend(names[0], "," + tail);
      assert ("," + tail)[1..] == tail;
      assert CommaCount("," + tail) == 1 + CommaCount(tail);
      if forall i :: 0 <= i < |names| ==> '"' !in names[i] {
        assert forall i :: 0 <= i < |names[1..]| ==> names[1..][i] == names[i + 1];
      }
    } else {
      assert NameCommas(names[1..]) == 0;
    }
  }

  /** A line without quotes reads back as one field more than it has commas. */
  lemma {:induction false} UnquotedFieldCount(s: string)
    requires '"' !in s
    ensures ParseFields(s).Some? && |ParseFields(s).value| == CommaCount(s) + 1
    decreases |s|
  {
    var n := UnquotedLength(s);
    assert s == [] || s[0] != '"' by {
      if s != [] { assert s[0] in s; }
    }
    CommaCountSkip(s, n);
    if n < |s| {
      var rest := s[n..];
      assert rest[0] == ',' && rest[1..] == s[n + 1..];
      assert forall c :: c in s[n + 1..] ==> c in s;
      UnquotedFieldCount(s[n + 1..]);
    }
  }

  /**
   * The header is not quoted: a header of quote-free names reads back as one field per
   * name plus one more for every comma inside the names, while each row line reads
   * back as exactly one field per name (`RowLineRoundTrip`).
   */
  lemma HeaderFieldCount(names: seq<string>)
    requires names != [] && forall i :: 0 <= i < |names| ==> '"' !in names[i]
    ensures ParseFields(Join(names, ",")).Some?
    ensures |ParseFields(Join(names, ",")).value| == |names| + NameCommas(names)
  {
    JoinCommas(names);
    UnquotedFieldCount(Join(names, ","));
  }
}
