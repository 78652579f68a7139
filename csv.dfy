/** The CSV text `exportToCsv` builds: an unquoted header line of labels,
    then one line per record with every field quoted and its quotes doubled,
    lines separated by a line feed. A parser for that text shows that the
    labels and every field can be read back. */
module Csv {
  import opened Common

  /** `{ key, label }`: the record field a column reads, and its label. */
  datatype Header = Header(key: string, title: string)

  /** A record as the export sees it: field name to its text. A key the map
      does not hold stands for a `null` or `undefined` field. */
  type Row = map<string, string>

  /** `parts.join([sep])`. */
  function Join(parts: seq<string>, sep: char): string {
    if |parts| == 0 then ""
    else if |parts| == 1 then parts[0]
    else parts[0] + [sep] + Join(parts[1..], sep)
  }

  /** `.replace(/"/g, '""')`: every double quote doubled, every other
      character kept. */
  function Escape(s: string): (e: string)
    ensures |e| >= |s|
  {
    if s == [] then ""
    else (if s[0] == '"' then "\"\"" else [s[0]]) + Escape(s[1..])
  }

  /** Collapses each doubled quote back into one. */
  function Unescape(e: string): string {
    if |e| >= 2 && e[0] == '"' && e[1] == '"' then "\"" + Unescape(e[2..])
    else if e == [] then ""
    else [e[0]] + Unescape(e[1..])
  }

  /** Collapsing the doubled quotes of an escaped field gives the original
      text back. */
  lemma {:induction false} UnescapeEscape(s: string)
    ensures Unescape(Escape(s)) == s
  {
    if s != [] {
      UnescapeEscape(s[1..]);
      if s[0] == '"' {
        assert Escape(s) == "\"\"" + Escape(s[1..]);
        assert Escape(s)[2..] == Escape(s[1..]);
      } else {
        assert Escape(s) == [s[0]] + Escape(s[1..]);
        assert Escape(s)[1..] == Escape(s[1..]);
      }
    }
  }

  /** Text without a double quote is written unchanged. */
  lemma {:induction false} EscapeWithoutQuotes(s: string)
    requires '"' !in s
    ensures Escape(s) == s
  {
    if s != [] {
      assert s[0] in s;
      assert forall c :: c in s[1..] ==> c in s;
      EscapeWithoutQuotes(s[1..]);
      assert [s[0]] + s[1..] == s;
    }
  }

  /** A field: the escaped text between double quotes. */
  function Quote(s: string): (q: string)
    ensures |q| >= 2 && q[0] == '"' && q[|q| - 1] == '"'
    ensures q[1..|q| - 1] == Escape(s)
  {
    "\"" + Escape(s) + "\""
  }

  /** Between its quotes a field holds the text back once its doubled quotes
      are collapsed, and holds it as is when it has no double quote. */
  lemma QuoteUnescapes(s: string)
    ensures Unescape(Quote(s)[1..|Quote(s)| - 1]) == s
    ensures '"' !in s ==> Quote(s) == "\"" + s + "\""
  {
    UnescapeEscape(s);
    if '"' !in s {
      EscapeWithoutQuotes(s);
    }
  }

  /** `String(row[key] ?? '')` for each header, in header order: the field's
      text, or the empty text for a missing field. */
  function Values(headers: seq<Header>, row: Row): (vs: seq<string>)
    ensures |vs| == |headers|
    ensures forall i :: 0 <= i < |headers| && headers[i].key in row ==> vs[i] == row[headers[i].key]
    ensures forall i :: 0 <= i < |headers| && headers[i].key !in row ==> vs[i] == ""
  {
    if headers == [] then []
    else [if headers[0].key in row then row[headers[0].key] else ""] + Values(headers[1..], row)
  }

  function Labels(headers: seq<Header>): (ls: seq<string>)
    ensures |ls| == |headers|
    ensures forall i :: 0 <= i < |headers| ==> ls[i] == headers[i].title
  {
    if headers == [] then [] else [headers[0].title] + Labels(headers[1..])
  }

  function QuoteAll(vs: seq<string>): (qs: seq<string>)
    ensures |qs| == |vs|
    ensures forall i :: 0 <= i < |vs| ==> qs[i] == Quote(vs[i])
  {
    if vs == [] then [] else [Quote(vs[0])] + QuoteAll(vs[1..])
  }

  /** One data line: the quoted fields joined by commas. */
  function RowText(vs: seq<string>): string {
    Join(QuoteAll(vs), ',')
  }

  function RowTexts(table: seq<seq<string>>): (ts: seq<string>)
    ensures |ts| == |table|
  {
    if table == [] then [] else [RowText(table[0])] + RowTexts(table[1..])
  }

  /** The field texts of every record, one row per record. */
  function Table(headers: seq<Header>, data: seq<Row>): (t: seq<seq<string>>)
    ensures |t| == |data|
    ensures forall i :: 0 <= i < |data| ==> t[i] == Values(headers, data[i])
  {
    if data == [] then [] else [Values(headers, data[0])] + Table(headers, data[1..])
  }

  /** `csvContent`: the header line, a line feed, and the data lines joined by
      line feeds. */
  function Content(headers: seq<Header>, data: seq<Row>): string {
    Join(Labels(headers), ',') + "\n" + Join(RowTexts(Table(headers, data)), '\n')
  }

  /** The text `exportToCsv` hands to the download: none when there is no
      record (the function alerts and returns), else the content. Whenever
      there is a column and no label holds a comma or a line feed, reading the
      text back gives the header labels and, for every record in order, the
      text of every field in header order. */
  function ExportToCsv(headers: seq<Header>, data: seq<Row>): (r: Option<string>)
    ensures r.None? <==> data == []
    ensures r.Some? ==> r.value == Content(headers, data)
    ensures r.Some? && |headers| > 0 && (forall i :: 0 <= i < |headers| ==> PlainLabel(headers[i].title)) ==>
      ParseCsv(r.value) == Some((Labels(headers), Table(headers, data)))
  {
    if data == [] then None
    else if |headers| > 0 && (forall i :: 0 <= i < |headers| ==> PlainLabel(headers[i].title)) then
      ContentRoundTrip(headers, data);
      Some(Content(headers, data))
    else Some(Content(headers, data))
  }

  function ExampleHeaders(): seq<Header> {
    [Header("id", "ID"), Header("note", "Note")]
  }

  lemma ExampleHeaderLine()
    ensures Join(Labels(ExampleHeaders()), ',') == "ID,Note"
  {
    assert Labels(ExampleHeaders()) == ["ID", "Note"];
    JoinCons(["ID", "Note"], ',');
    assert ["ID", "Note"][1..] == ["Note"];
  }

  lemma ExampleDataLine()
    ensures RowText(["1", ""]) == "\"1\",\"\""
  {
    var a, b := Quote("1"), Quote("");
    assert a == "\"1\"" by {
      EscapeWithoutQuotes("1");
    }
    assert b == "\"\"";
    assert QuoteAll(["1", ""]) == [a, b] by {
      assert ["1", ""][1..] == [""];
    }
    JoinTwo(a, b, ',');
  }

  lemma JoinTwo(a: string, b: string, sep: char)
    ensures Join([a, b], sep) == a + [sep] + b
  {
    assert [a, b][1..] == [b];
  }

  /** Two columns and one record: the labels stay unquoted, the field is
      quoted, and a field the record lacks is written as an empty quoted
      field. */
  lemma ExportExample()
    ensures ExportToCsv(ExampleHeaders(), [map["id" := "1"]]) == Some("ID,Note\n\"1\",\"\"")
  {
    var row: Row := map["id" := "1"];
    ExampleHeaderLine();
    assert Table(ExampleHeaders(), [row]) == [["1", ""]] by {
      assert Values(ExampleHeaders(), row) == ["1", ""];
    }
    ExampleDataLine();
    assert RowTexts([["1", ""]]) == ["\"1\",\"\""];
    assert Join(["\"1\",\"\""], '\n') == "\"1\",\"\"";
    assert "ID,Note" + "\n" + "\"1\",\"\"" == "ID,Note\n\"1\",\"\"";
  }

  // Reading the text back.

  /** After an opening quote: the field's text up to its closing quote, a
      doubled quote standing for one quote, and what follows the closing
      quote. */
  function ParseQuotedBody(t: string): (r: Option<(string, string)>)
    ensures r.Some? ==> |r.value.1| < |t|
    decreases |t|
  {
    if t == [] then None
    else if t[0] == '"' then
      if |t| > 1 && t[1] == '"' then
        match ParseQuotedBody(t[2..])
        case None => None
        case Some((v, rest)) => Some(("\"" + v, rest))
      else Some(("", t[1..]))
    else
      match ParseQuotedBody(t[1..])
      case None => None
      case Some((v, rest)) => Some(([t[0]] + v, rest))
  }

  function ParseField(t: string): (r: Option<(string, string)>)
    ensures r.Some? ==> |r.value.1| < |t|
  {
    if t != [] && t[0] == '"' then ParseQuotedBody(t[1..]) else None
  }

  /** Quoted fields separated by commas, up to the first character after a
      field that is not a comma. */
  function ParseFields(t: string): (r: Option<(seq<string>, string)>)
    ensures r.Some? ==> |r.value.1| < |t|
    decreases |t|
  {
    match ParseField(t)
    case None => None
    case Some((v, rest)) =>
      if rest != [] && rest[0] == ',' then
        match ParseFields(rest[1..])
        case None => None
        case Some((vs, rest')) => Some(([v] + vs, rest'))
      else Some(([v], rest))
  }

  /** Data lines up to the end of the text. */
  function ParseRecords(t: string): Option<seq<seq<string>>>
    decreases |t|
  {
    match ParseFields(t)
    case None => None
    case Some((vs, rest)) =>
      if rest == [] then Some([vs])
      else if rest[0] == '\n' then
        match ParseRecords(rest[1..])
        case None => None
        case Some(rows) => Some([vs] + rows)
      else None
  }

  /** An unquoted label: the characters up to a comma, a line feed or the
      end of the text. */
  function ParseLabel(t: string): (r: (string, string))
    ensures |r.1| <= |t|
  {
    if t == [] || t[0] == ',' || t[0] == '\n' then ("", t)
    else var (l, rest) := ParseLabel(t[1..]); ([t[0]] + l, rest)
  }

  /** The header line: labels separated by commas, ended by a line feed. */
  function ParseLabels(t: string): Option<(seq<string>, string)>
    decreases |t|
  {
    var (l, rest) := ParseLabel(t);
    if rest == [] then None
    else if rest[0] == ',' then
      match ParseLabels(rest[1..])
      case None => None
      case Some((ls, rest')) => Some(([l] + ls, rest'))
    else Some(([l], rest[1..]))
  }

  /** The labels of the header line and the fields of every data line. */
  function ParseCsv(t: string): Option<(seq<string>, seq<seq<string>>)> {
    match ParseLabels(t)
    case None => None
    case Some((labels, rest)) =>
      match ParseRecords(rest)
      case None => None
      case Some(rows) => Some((labels, rows))
  }

  lemma {:induction false} QuotedBodyRoundTrip(s: string, rest: string)
    requires rest == [] || rest[0] != '"'
    ensures ParseQuotedBody(Escape(s) + "\"" + rest) == Some((s, rest))
  {
    var t := Escape(s) + "\"" + rest;
    if s == [] {
      assert t == "\"" + rest;
      assert t[1..] == rest;
    } else {
      var u := Escape(s[1..]) + "\"" + rest;
      QuotedBodyRoundTrip(s[1..], rest);
      if s[0] == '"' {
        assert t == "\"\"" + u;
        assert t[2..] == u;
        assert ParseQuotedBody(t) == Some(("\"" + s[1..], rest));
        assert "\"" + s[1..] == s;
      } else {
        assert t == [s[0]] + u;
        assert t[0] == s[0] && t[1..] == u;
        assert ParseQuotedBody(t) == Some(([s[0]] + s[1..], rest));
        assert [s[0]] + s[1..] == s;
      }
    }
  }

  lemma ParseFieldsLast(t: string, v: string, rest: string)
    requires ParseField(t) == Some((v, rest))
    requires rest == [] || rest[0] != ','
    ensures ParseFields(t) == Some(([v], rest))
  {
  }

  lemma ParseFieldsMore(t: string, v: string, tail: string, vs: seq<string>, rest: string)
    requires ParseField(t) == Some((v, tail))
    requires tail != [] && tail[0] == ','
    requires ParseFields(tail[1..]) == Some((vs, rest))
    ensures ParseFields(t) == Some(([v] + vs, rest))
  {
  }

  /** A quoted field reads back as its text, whatever follows the closing
      quote unless it is another quote. */
  lemma FieldOfQuote(v: string, rest: string)
    requires rest == [] || rest[0] != '"'
    ensures ParseField(Quote(v) + rest) == Some((v, rest))
  {
    assert (Quote(v) + rest)[1..] == Escape(v) + "\"" + rest;
    QuotedBodyRoundTrip(v, rest);
  }

  lemma RowTextCons(vs: seq<string>)
    requires |vs| > 1
    ensures RowText(vs) == Quote(vs[0]) + "," + RowText(vs[1..])
  {
    assert QuoteAll(vs)[1..] == QuoteAll(vs[1..]);
  }

  /** A quoted field and a comma in front of a line that reads back add
      that field in front of what is read. */
  lemma FieldsCons(v: string, more: string, vs: seq<string>, rest: string)
    requires ParseFields(more + rest) == Some((vs, rest))
    ensures ParseFields(Quote(v) + "," + more + rest) == Some(([v] + vs, rest))
  {
    var tail := "," + (more + rest);
    assert Quote(v) + "," + more + rest == Quote(v) + tail;
    FieldOfQuote(v, tail);
    assert tail[1..] == more + rest;
    ParseFieldsMore(Quote(v) + tail, v, tail, vs, rest);
  }

  /** A line of one quoted field reads back as that field. */
  lemma FieldsOne(v: string, rest: string)
    requires rest == [] || rest[0] == '\n'
    ensures ParseFields(RowText([v]) + rest) == Some(([v], rest))
  {
    assert QuoteAll([v]) == [Quote(v)];
    assert RowText([v]) == Quote(v);
    FieldOfQuote(v, rest);
    ParseFieldsLast(RowText([v]) + rest, v, rest);
  }

  lemma {:induction false} FieldsRoundTrip(vs: seq<string>, rest: string)
    requires |vs| > 0
    requires rest == [] || rest[0] == '\n'
    ensures ParseFields(RowText(vs) + rest) == Some((vs, rest))
  {
    if |vs| == 1 {
      FieldsOne(vs[0], rest);
      assert [vs[0]] == vs;
    } else {
      FieldsRoundTrip(vs[1..], rest);
      FieldsCons(vs[0], RowText(vs[1..]), vs[1..], rest);
      RowTextCons(vs);
      assert [vs[0]] + vs[1..] == vs;
    }
  }

  lemma RecordsLast(t: string, vs: seq<string>)
    requires ParseFields(t) == Some((vs, ""))
    ensures ParseRecords(t) == Some([vs])
  {
  }

  lemma RecordsCons(line: string, more: string, rows: seq<seq<string>>)
    requires |rows| > 1
    requires ParseFields(line + ("\n" + more)) == Some((rows[0], "\n" + more))
    requires ParseRecords(more) == Some(rows[1..])
    ensures ParseRecords(line + ("\n" + more)) == Some(rows)
  {
    assert ("\n" + more)[1..] == more;
    assert [rows[0]] + rows[1..] == rows;
  }

  lemma JoinCons(parts: seq<string>, sep: char)
    requires |parts| > 1
    ensures Join(parts, sep) == parts[0] + [sep] + Join(parts[1..], sep)
  {
  }

  lemma {:induction false} RecordsRoundTrip(rows: seq<seq<string>>)
    requires |rows| > 0
    requires forall i :: 0 <= i < |rows| ==> |rows[i]| > 0
    ensures ParseRecords(Join(RowTexts(rows), '\n')) == Some(rows)
  {
    if |rows| == 1 {
      FieldsRoundTrip(rows[0], "");
      assert RowText(rows[0]) + "" == Join(RowTexts(rows), '\n');
      RecordsLast(Join(RowTexts(rows), '\n'), rows[0]);
      assert [rows[0]] == rows;
    } else {
      RecordsRoundTrip(rows[1..]);
      RecordsStep(rows);
    }
  }

  /** Several data lines read back as the first line's fields followed by
      the remaining lines read back. */
  lemma RecordsStep(rows: seq<seq<string>>)
    requires |rows| > 1 && |rows[0]| > 0
    requires ParseRecords(Join(RowTexts(rows[1..]), '\n')) == Some(rows[1..])
    ensures ParseRecords(Join(RowTexts(rows), '\n')) == Some(rows)
  {
    var more := Join(RowTexts(rows[1..]), '\n');
    LinesCons(rows);
    FieldsRoundTrip(rows[0], "\n" + more);
    RecordsCons(RowText(rows[0]), more, rows);
  }

  lemma LinesCons(rows: seq<seq<string>>)
    requires |rows| > 1
    ensures Join(RowTexts(rows), '\n') == RowText(rows[0]) + ("\n" + Join(RowTexts(rows[1..]), '\n'))
  {
    RowTextsCons(rows);
    JoinConsGrouped(RowTexts(rows), '\n');
  }

  lemma RowTextsCons(rows: seq<seq<string>>)
    requires |rows| > 0
    ensures RowTexts(rows)[0] == RowText(rows[0]) && RowTexts(rows)[1..] == RowTexts(rows[1..])
  {
  }

  lemma JoinConsGrouped(parts: seq<string>, sep: char)
    requires |parts| > 1
    ensures Join(parts, sep) == parts[0] + ([sep] + Join(parts[1..], sep))
  {
    var j := Join(parts[1..], sep);
    assert parts[0] + [sep] + j == parts[0] + ([sep] + j);
  }

  predicate PlainLabel(l: string) {
    ',' !in l && '\n' !in l
  }

  lemma {:induction false} LabelRoundTrip(l: string, rest: string)
    requires PlainLabel(l)
    requires rest == [] || rest[0] == ',' || rest[0] == '\n'
    ensures ParseLabel(l + rest) == (l, rest)
  {
    if l != [] {
      assert l[0] in l;
      assert (l + rest)[1..] == l[1..] + rest;
      assert forall c :: c in l[1..] ==> c in l;
      LabelRoundTrip(l[1..], rest);
      assert [l[0]] + l[1..] == l;
    } else {
      assert l + rest == rest;
    }
  }

  lemma LabelsLast(t: string, l: string, rest: string)
    requires ParseLabel(t) == (l, "\n" + rest)
    ensures ParseLabels(t) == Some(([l], rest))
  {
    assert ("\n" + rest)[1..] == rest;
  }

  lemma LabelsCons(t: string, l: string, more: string, ls: seq<string>, rest: string)
    requires ParseLabel(t) == (l, "," + more)
    requires ParseLabels(more) == Some((ls, rest))
    ensures ParseLabels(t) == Some(([l] + ls, rest))
  {
    assert ("," + more)[1..] == more;
  }

  lemma {:induction false} LabelsRoundTrip(ls: seq<string>, rest: string)
    requires |ls| > 0
    requires forall i :: 0 <= i < |ls| ==> PlainLabel(ls[i])
    ensures ParseLabels(Join(ls, ',') + "\n" + rest) == Some((ls, rest))
  {
    var t := Join(ls, ',') + "\n" + rest;
    if |ls| == 1 {
      assert t == ls[0] + ("\n" + rest);
      LabelRoundTrip(ls[0], "\n" + rest);
      LabelsLast(t, ls[0], rest);
      assert [ls[0]] == ls;
    } else {
      var more := Join(ls[1..], ',') + "\n" + rest;
      JoinCons(ls, ',');
      assert t == ls[0] + ("," + more);
      LabelRoundTrip(ls[0], "," + more);
      LabelsRoundTrip(ls[1..], rest);
      LabelsCons(t, ls[0], more, ls[1..], rest);
      assert [ls[0]] + ls[1..] == ls;
    }
  }

  /** Reading back the content gives the header labels and, for every record
      in order, the text of every field in header order, provided there is a
      column and no label holds a comma or a line feed. */
  lemma ContentRoundTrip(headers: seq<Header>, data: seq<Row>)
    requires |headers| > 0 && |data| > 0
    requires forall i :: 0 <= i < |headers| ==> PlainLabel(headers[i].title)
    ensures ParseCsv(Content(headers, data)) == Some((Labels(headers), Table(headers, data)))
  {
    var body := Join(RowTexts(Table(headers, data)), '\n');
    LabelsRoundTrip(Labels(headers), body);
    RecordsRoundTrip(Table(headers, data));
  }
}
