/**
 * A reader for the CSV dialect the export writes (comma separators, line-feed
 * record ends, fields optionally in double quotes with `""` for a quote), used
 * as an independent partner: reading an export back gives the header keys and
 * every object's values in key order.
 */
module CsvReader {
  import opened Wrappers
  import opened Export

  /** Reads the rest of a quoted field after its opening quote: the content and what follows the closing quote. */
  function ReadQuoted(s: string): (r: Option<(string, string)>)
    ensures r.Some? ==> |r.value.1| < |s|
  {
    if s == [] then None
    else if s[0] == '"' then
      if |s| >= 2 && s[1] == '"' then
        match ReadQuoted(s[2..])
        case None => None
        case Some((f, rest)) => Some(("\"" + f, rest))
      else Some(([], s[1..]))
    else
      match ReadQuoted(s[1..])
      case None => None
      case Some((f, rest)) => Some(([s[0]] + f, rest))
  }

  /** Reads an unquoted field: everything up to the next comma or line feed. */
  function ReadBare(s: string): (r: (string, string))
    ensures |r.1| <= |s|
  {
    if s == [] || s[0] == ',' || s[0] == '\n' then ([], s)
    else var (f, rest) := ReadBare(s[1..]); ([s[0]] + f, rest)
  }

  /** Reads one field and returns it with the text that follows it. */
  function ReadField(s: string): (r: Option<(string, string)>)
    ensures r.Some? ==> |r.value.1| <= |s|
  {
    if s != [] && s[0] == '"' then ReadQuoted(s[1..]) else Some(ReadBare(s))
  }

  /** Reads one record: its fields, and the text after its line feed (`None` when the input ended). */
  function ReadRecord(s: string): (r: Option<(seq<string>, Option<string>)>)
    ensures r.Some? && r.value.1.Some? ==> |r.value.1.value| < |s|
    decreases |s|
  {
    match ReadField(s)
    case None => None
    case Some((f, rest)) =>
      if rest == [] then Some(([f], None))
      else if rest[0] == '\n' then Some(([f], Some(rest[1..])))
      else if rest[0] == ',' then
        match ReadRecord(rest[1..])
        case None => None
        case Some((fs, next)) => Some(([f] + fs, next))
      else None
  }

  /** Reads records until the input ends; a final line feed is followed by one more (possibly empty) record. */
  function ReadRecords(s: string): Option<seq<seq<string>>>
    decreases |s|
  {
    match ReadRecord(s)
    case None => None
    case Some((fields, None)) => Some([fields])
    case Some((fields, Some(next))) =>
      match ReadRecords(next)
      case None => None
      case Some(records) => Some([fields] + records)
  }

  /** Reads a whole CSV text; the empty text has no records. */
  function ReadCsv(s: string): Option<seq<seq<string>>> {
    if s == [] then Some([]) else ReadRecords(s)
  }

  /** The text a cell stands for: a present value, or the empty string for `undefined`. */
  function CellText(v: Option<string>): string {
    if v.Some? then v.value else ""
  }

  /** The cell texts of a row of values. */
  function CellTexts(vs: seq<Option<string>>): (ts: seq<string>)
    ensures |ts| == |vs|
    ensures forall i :: 0 <= i < |vs| ==> ts[i] == CellText(vs[i])
  {
    if vs == [] then [] else [CellText(vs[0])] + CellTexts(vs[1..])
  }

  /** The lines written for rows of values. */
  function EscapedLines(rows: seq<seq<Option<string>>>): (ls: seq<string>)
    ensures |ls| == |rows|
    ensures forall i :: 0 <= i < |rows| ==> ls[i] == EscapedRow(rows[i])
  {
    if rows == [] then [] else [EscapedRow(rows[0])] + EscapedLines(rows[1..])
  }

  /** The cell texts of rows of values. */
  function TextRows(rows: seq<seq<Option<string>>>): (ts: seq<seq<string>>)
    ensures |ts| == |rows|
    ensures forall i :: 0 <= i < |rows| ==> ts[i] == CellTexts(rows[i])
  {
    if rows == [] then [] else [CellTexts(rows[0])] + TextRows(rows[1..])
  }

  /** A value is one where the next character cannot continue a field. */
  predicate EndsField(t: string) {
    t == [] || t[0] == ',' || t[0] == '\n'
  }

  lemma {:induction false} ReadQuotedRoundTrip(v: string, t: string)
    requires t == [] || t[0] != '"'
    ensures ReadQuoted(DoubleQuotes(v) + "\"" + t) == Some((v, t))
  {
    var s := DoubleQuotes(v) + "\"" + t;
    if v == [] {
      assert s == "\"" + t;
      assert s[1..] == t;
    } else {
      ReadQuotedRoundTrip(v[1..], t);
      var tail := DoubleQuotes(v[1..]) + "\"" + t;
      if v[0] == '"' {
        assert s == "\"\"" + tail;
        assert s[2..] == tail;
        assert "\"" + v[1..] == v;
      } else {
        assert s == [v[0]] + tail;
        assert s[1..] == tail;
        assert [v[0]] + v[1..] == v;
      }
    }
  }

  lemma {:induction false} ReadBareRoundTrip(v: string, t: string)
    requires ',' !in v && '\n' !in v
    requires EndsField(t)
    ensures ReadBare(v + t) == (v, t)
  {
    if v == [] {
      assert v + t == t;
    } else {
      ReadBareRoundTrip(v[1..], t);
      assert (v + t)[1..] == v[1..] + t;
      assert [v[0]] + v[1..] == v;
    }
  }

  /** Reading an escaped cell gives back the value it was written from. */
  lemma ReadFieldRoundTrip(v: Option<string>, t: string)
    requires EndsField(t)
    ensures ReadField(EscapeField(v) + t) == Some((CellText(v), t))
  {
    if v.None? {
      assert EscapeField(v) + t == t;
    } else if NeedsQuotes(v.value) {
      var s := EscapeField(v) + t;
      assert s == "\"" + (DoubleQuotes(v.value) + "\"" + t);
      assert s[1..] == DoubleQuotes(v.value) + "\"" + t;
      ReadQuotedRoundTrip(v.value, t);
    } else {
      ReadBareRoundTrip(v.value, t);
      assert v.value + t == [] || v.value + t != [];
      if v.value != [] {
        assert (v.value + t)[0] == v.value[0];
        assert v.value[0] in v.value;
      }
    }
  }

  /** A row of two or more values is its first field, a comma, and the rest of the row. */
  lemma EscapedRowCons(vs: seq<Option<string>>)
    requires |vs| > 1
    ensures EscapedRow(vs) == EscapeField(vs[0]) + [','] + EscapedRow(vs[1..])
  {
    assert EscapedCells(vs)[1..] == EscapedCells(vs[1..]);
  }

  /** A field, a comma, and a record that reads back: the record reads back with the field in front. */
  lemma ReadRecordAfterField(v: Option<string>, rest: string, fs: seq<string>, next: Option<string>)
    requires ReadRecord(rest) == Some((fs, next))
    ensures ReadRecord(EscapeField(v) + ([','] + rest)) == Some(([CellText(v)] + fs, next))
  {
    ReadFieldRoundTrip(v, [','] + rest);
    assert ([','] + rest)[1..] == rest;
  }

  /** A row of two or more values reads back as its first cell in front of what the rest of the row reads back as. */
  lemma ReadRecordCons(vs: seq<Option<string>>, t: string, next: Option<string>)
    requires |vs| > 1
    requires ReadRecord(EscapedRow(vs[1..]) + t) == Some((CellTexts(vs[1..]), next))
    ensures ReadRecord(EscapedRow(vs) + t) == Some((CellTexts(vs), next))
  {
    var rest := EscapedRow(vs[1..]) + t;
    EscapedRowCons(vs);
    assert EscapedRow(vs) + t == EscapeField(vs[0]) + ([','] + rest);
    ReadRecordAfterField(vs[0], rest, CellTexts(vs[1..]), next);
    assert CellTexts(vs) == [CellText(vs[0])] + CellTexts(vs[1..]);
  }

  /** A row of escaped values, followed by the end of input or a line feed, reads back as its cell texts. */
  lemma {:induction false} ReadRecordRoundTrip(vs: seq<Option<string>>, t: string)
    requires vs != []
    requires t == [] || t[0] == '\n'
    ensures ReadRecord(EscapedRow(vs) + t) == Some((CellTexts(vs), if t == [] then None else Some(t[1..])))
  {
    if |vs| == 1 {
      ReadFieldRoundTrip(vs[0], t);
      assert EscapedRow(vs) == EscapeField(vs[0]);
      assert CellTexts(vs) == [CellText(vs[0])];
    } else {
      ReadRecordRoundTrip(vs[1..], t);
      ReadRecordCons(vs, t, if t == [] then None else Some(t[1..]));
    }
  }

  /** Reading lines of escaped rows joined by line feeds gives back every row's cell texts. */
  lemma {:induction false} ReadRecordsRoundTrip(rows: seq<seq<Option<string>>>)
    requires rows != []
    requires forall i :: 0 <= i < |rows| ==> rows[i] != []
    ensures ReadRecords(Join(EscapedLines(rows), '\n')) == Some(TextRows(rows))
  {
    var lines := EscapedLines(rows);
    if |rows| == 1 {
      ReadRecordRoundTrip(rows[0], []);
      assert lines[0] + [] == lines[0];
      assert Join(lines, '\n') == lines[0];
      assert TextRows(rows) == [CellTexts(rows[0])];
    } else {
      assert lines[1..] == EscapedLines(rows[1..]);
      var rest := Join(lines[1..], '\n');
      assert Join(lines, '\n') == lines[0] + ("\n" + rest);
      ReadRecordRoundTrip(rows[0], "\n" + rest);
      assert ("\n" + rest)[1..] == rest;
      ReadRecordsRoundTrip(rows[1..]);
      assert TextRows(rows) == [CellTexts(rows[0])] + TextRows(rows[1..]);
    }
  }

  /**
   * Reading an export back gives the header keys, then each object's values in
   * key order (`undefined` read back as empty), whatever commas, quotes and line
   * feeds the values hold. The header keys themselves are written unescaped, so
   * they must hold none of those characters.
   */
  lemma CsvRoundTrip(data: seq<Obj>, headers: Option<seq<string>>)
    requires data != []
    requires CsvKeys(data, headers) != []
    requires forall k :: k in CsvKeys(data, headers) ==> !NeedsQuotes(k)
    ensures ReadCsv(ArrayToCsv(data, headers))
         == Some([CsvKeys(data, headers)]
                 + seq(|data|, i requires 0 <= i < |data| => CellTexts(RowValues(data[i], CsvKeys(data, headers)))))
  {
    var keys := CsvKeys(data, headers);
    var header := seq(|keys|, j requires 0 <= j < |keys| => Some(keys[j]));
    var rows := [header] + seq(|data|, i requires 0 <= i < |data| => RowValues(data[i], keys));
    var lines := CsvLines(data, headers);
    forall j | 0 <= j < |keys| ensures EscapeField(header[j]) == keys[j] {
      assert keys[j] in keys;
    }
    assert EscapedCells(header) == keys;
    assert lines == EscapedLines(rows);
    ReadRecordsRoundTrip(rows);
    forall j | 0 <= j < |keys| ensures CellText(header[j]) == keys[j] {
    }
    assert CellTexts(header) == keys;
    assert TextRows(rows)[1..] == seq(|data|, i requires 0 <= i < |data| => CellTexts(RowValues(data[i], keys)));
    assert TextRows(rows) == [keys] + TextRows(rows)[1..];
  }
}
