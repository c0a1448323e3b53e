/**
 * The export utilities: CSV serialisation of plain objects, the guarded
 * export action with its format dispatch, and the per-entity file names.
 * The browser download is modelled as an event appended to a log.
 */
module Export {
  import opened Wrappers
  import opened Text

  /** One own property of a plain object; every exported value is a string, `None` is `undefined`. */
  datatype Entry = Entry(key: string, value: Option<string>)

  /** A `Record<string, unknown>`: its own properties, in the order `Object.keys` reports them. */
  type Obj = seq<Entry>

  /** `Object.keys(o)`. */
  function Keys(o: Obj): (ks: seq<string>)
    ensures |ks| == |o|
    ensures forall i :: 0 <= i < |o| ==> ks[i] == o[i].key
  {
    if o == [] then [] else [o[0].key] + Keys(o[1..])
  }

  /** `o[k]`: the value of the property named `k`, or `undefined` when there is none. */
  function Get(o: Obj, k: string): Option<string> {
    if o == [] then None else if o[0].key == k then o[0].value else Get(o[1..], k)
  }

  /** A property the object does not have reads as `undefined`. */
  lemma {:induction false} GetMissing(o: Obj, k: string)
    requires k !in Keys(o)
    ensures Get(o, k) == None
  {
    if o != [] {
      assert Keys(o)[0] == o[0].key;
      assert Keys(o[1..]) == Keys(o)[1..];
      GetMissing(o[1..], k);
    }
  }

  /** `parts.join(sep)`. */
  function Join(parts: seq<string>, sep: char): string {
    if parts == [] then [] else if |parts| == 1 then parts[0] else parts[0] + [sep] + Join(parts[1..], sep)
  }

  /** `s.split(sep)`. */
  function Split(s: string, sep: char): (r: seq<string>)
    ensures |r| >= 1
  {
    if s == [] then [[]]
    else if s[0] == sep then [[]] + Split(s[1..], sep)
    else var rest := Split(s[1..], sep); [[s[0]] + rest[0]] + rest[1..]
  }

  lemma {:induction false} SplitWithoutSeparator(a: string, b: string, sep: char)
    requires sep !in a
    ensures Split(a + b, sep) == [a + Split(b, sep)[0]] + Split(b, sep)[1..]
  {
    if a != [] {
      SplitWithoutSeparator(a[1..], b, sep);
      assert (a + b)[1..] == a[1..] + b;
      assert (a + b)[0] == a[0] != sep;
      assert [a[0]] + (a[1..] + Split(b, sep)[0]) == a + Split(b, sep)[0];
    } else {
      assert a + b == b;
      assert Split(b, sep) == [Split(b, sep)[0]] + Split(b, sep)[1..];
      assert a + Split(b, sep)[0] == Split(b, sep)[0];
    }
  }

  /** Splitting a join on its separator gives the parts back, when no part contains the separator. */
  lemma {:induction false} SplitJoin(parts: seq<string>, sep: char)
    requires parts != []
    requires forall i :: 0 <= i < |parts| ==> sep !in parts[i]
    ensures Split(Join(parts, sep), sep) == parts
  {
    if |parts| == 1 {
      SplitWithoutSeparator(parts[0], [], sep);
      assert parts[0] + [] == parts[0];
    } else {
      var rest := Join(parts[1..], sep);
      SplitJoin(parts[1..], sep);
      assert Join(parts, sep) == parts[0] + ([sep] + rest);
      SplitWithoutSeparator(parts[0], [sep] + rest, sep);
      assert ([sep] + rest)[0] == sep && ([sep] + rest)[1..] == rest;
      var sp := Split([sep] + rest, sep);
      assert sp == [[]] + Split(rest, sep);
      assert sp[0] == [] && sp[1..] == parts[1..];
      assert parts[0] + sp[0] == parts[0];
      assert parts == [parts[0]] + parts[1..];
    }
  }

  /** The characters that make a string value need quoting: comma, double quote, line feed (not carriage return). */
  predicate NeedsQuotes(s: string) {
    ',' in s || '"' in s || '\n' in s
  }

  /** `s.replace(/"/g, '""')`. */
  function DoubleQuotes(s: string): (r: string)
    ensures |r| >= |s|
    ensures '"' !in s ==> r == s
  {
    if s == [] then [] else (if s[0] == '"' then "\"\"" else [s[0]]) + DoubleQuotes(s[1..])
  }

  /** One CSV cell: quoted with inner quotes doubled when needed, as is otherwise, empty when absent. */
  function EscapeField(v: Option<string>): string {
    match v
    case None => ""
    case Some(s) => if NeedsQuotes(s) then "\"" + DoubleQuotes(s) + "\"" else s
  }

  /** Collapses every `""` back to `"`: the inverse of `DoubleQuotes`. */
  function CollapseQuotes(s: string): string {
    if |s| >= 2 && s[0] == '"' && s[1] == '"' then "\"" + CollapseQuotes(s[2..])
    else if s == [] then []
    else [s[0]] + CollapseQuotes(s[1..])
  }

  /** Strips the outer quotes of a quoted cell and collapses its doubled quotes; leaves any other cell alone. */
  function Unquote(e: string): string {
    if |e| >= 2 && e[0] == '"' && e[|e| - 1] == '"' then CollapseQuotes(e[1..|e| - 1]) else e
  }

  lemma {:induction false} CollapseDoubleQuotes(s: string)
    ensures CollapseQuotes(DoubleQuotes(s)) == s
  {
    if s != [] {
      CollapseDoubleQuotes(s[1..]);
      var d := DoubleQuotes(s[1..]);
      if s[0] == '"' {
        assert DoubleQuotes(s) == "\"\"" + d;
        assert (DoubleQuotes(s))[2..] == d;
      } else {
        assert DoubleQuotes(s) == [s[0]] + d;
        assert (DoubleQuotes(s))[1..] == d;
      }
    }
  }

  /** Escaping a present value can be undone. */
  lemma EscapeRoundTrip(s: string)
    ensures Unquote(EscapeField(Some(s))) == s
  {
    if NeedsQuotes(s) {
      var e := EscapeField(Some(s));
      assert e[1..|e| - 1] == DoubleQuotes(s);
      CollapseDoubleQuotes(s);
    }
  }

  /** The cells of one data row: the object's values in the order of `keys`. */
  function RowValues(o: Obj, keys: seq<string>): (vs: seq<Option<string>>)
    ensures |vs| == |keys|
  {
    seq(|keys|, i requires 0 <= i < |keys| => Get(o, keys[i]))
  }

  /** The escaped cells of a row. */
  function EscapedCells(vs: seq<Option<string>>): (cs: seq<string>)
    ensures |cs| == |vs|
    ensures forall j :: 0 <= j < |vs| ==> cs[j] == EscapeField(vs[j])
  {
    if vs == [] then [] else [EscapeField(vs[0])] + EscapedCells(vs[1..])
  }

  /** A row of escaped cells joined by commas. */
  function EscapedRow(vs: seq<Option<string>>): string {
    Join(EscapedCells(vs), ',')
  }

  /** The keys a CSV export uses: the given headers, else the first object's keys. */
  function CsvKeys(data: seq<Obj>, headers: Option<seq<string>>): seq<string>
    requires data != []
  {
    if headers.Some? then headers.value else Keys(data[0])
  }

  /** The lines of a CSV export: the header row, then one row per object. */
  function CsvLines(data: seq<Obj>, headers: Option<seq<string>>): (lines: seq<string>)
    requires data != []
    ensures |lines| == 1 + |data|
  {
    var keys := CsvKeys(data, headers);
    [Join(keys, ',')] + seq(|data|, i requires 0 <= i < |data| => EscapedRow(RowValues(data[i], keys)))
  }

  /** `arrayToCSV(data, headers)`. */
  function ArrayToCsv(data: seq<Obj>, headers: Option<seq<string>>): (r: string)
    ensures r == [] <==> data == []
  {
    if data == [] then "" else
    var lines := CsvLines(data, headers);
    assert Join(lines, '\n') == lines[0] + ['\n'] + Join(lines[1..], '\n');
    Join(lines, '\n')
  }

  lemma {:induction false} JoinAvoids(parts: seq<string>, sep: char, c: char)
    requires forall i :: 0 <= i < |parts| ==> c !in parts[i]
    requires sep != c
    ensures c !in Join(parts, sep)
  {
    if |parts| > 1 {
      JoinAvoids(parts[1..], sep, c);
    }
  }

  /**
   * When neither a key nor a value holds a line feed, the export has exactly one
   * line for the header and one line per object, in order.
   */
  lemma CsvLineCount(data: seq<Obj>, headers: Option<seq<string>>)
    requires data != []
    requires forall k :: k in CsvKeys(data, headers) ==> '\n' !in k
    requires forall i, k :: 0 <= i < |data| && k in CsvKeys(data, headers) && Get(data[i], k).Some? ==> '\n' !in Get(data[i], k).value
    ensures Split(ArrayToCsv(data, headers), '\n') == CsvLines(data, headers)
    ensures |Split(ArrayToCsv(data, headers), '\n')| == 1 + |data|
  {
    var keys := CsvKeys(data, headers);
    var lines := CsvLines(data, headers);
    JoinAvoids(keys, ',', '\n');
    forall i | 1 <= i < |lines| ensures '\n' !in lines[i] {
      var vs := RowValues(data[i - 1], keys);
      var cells := EscapedCells(vs);
      forall j | 0 <= j < |cells| ensures '\n' !in cells[j] {
        assert vs[j] == Get(data[i - 1], keys[j]);
        assert keys[j] in keys;
        if vs[j].Some? && NeedsQuotes(vs[j].value) {
          DoubleQuotesAvoids(vs[j].value, '\n');
        }
      }
      JoinAvoids(cells, ',', '\n');
    }
    SplitJoin(lines, '\n');
  }

  lemma {:induction false} DoubleQuotesAvoids(s: string, c: char)
    requires c !in s && c != '"'
    ensures c !in DoubleQuotes(s)
  {
    if s != [] {
      DoubleQuotesAvoids(s[1..], c);
    }
  }

  /** What the browser sees: a console warning or a file download. */
  datatype Event = Warning(message: string) | Download(content: string, filename: string, mimeType: string)

  /** The browser side effects of the export functions, as an append-only log. */
  class Browser {
    var events: seq<Event>

    constructor ()
      ensures events == []
    {
      events := [];
    }

    /** `console.warn(message)`. */
    method Warn(message: string)
      modifies this
      ensures events == old(events) + [Warning(message)]
    {
      events := events + [Warning(message)];
    }

    /** `downloadFile(content, filename, mimeType)`: the Blob, the object URL and the link click become one event. */
    method DownloadFile(content: string, filename: string, mimeType: string)
      modifies this
      ensures events == old(events) + [Download(content, filename, mimeType)]
    {
      events := events + [Download(content, filename, mimeType)];
    }
  }

  const NoDataWarning := "No data to export"
  const CsvMimeType := "text/csv;charset=utf-8;"
  const JsonMimeType := "application/json"

  /**
   * What `exportData(data, { filename, format })` does: the events it appends,
   * or the error it throws. `json` stands for `JSON.stringify(data, null, 2)`.
   */
  function ExportEffect(data: seq<Obj>, filename: string, format: string, json: seq<Obj> -> string): (r: Result<seq<Event>>)
    ensures data == [] ==> r == Success([Warning(NoDataWarning)])
    ensures r.Failure? <==> data != [] && format != "csv" && format != "json"
    ensures r.Failure? ==> r.error == "Unsupported export format: " + format
    ensures r.Success? && data != [] ==>
      && |r.value| == 1 && r.value[0].Download?
      && r.value[0].filename == filename + "." + format
      && (format == "csv" ==> r.value[0].content == ArrayToCsv(data, None) && r.value[0].mimeType == CsvMimeType)
      && (format == "json" ==> r.value[0].content == json(data) && r.value[0].mimeType == JsonMimeType)
  {
    if data == [] then Success([Warning(NoDataWarning)])
    else if format == "csv" then Success([Download(ArrayToCsv(data, None), filename + ".csv", CsvMimeType)])
    else if format == "json" then Success([Download(json(data), filename + ".json", JsonMimeType)])
    else Failure("Unsupported export format: " + format)
  }

  /** `exportData(data, { filename, format })`: warns and stops on no data, throws on an unknown format, else downloads. */
  method ExportData(browser: Browser, data: seq<Obj>, filename: string, format: string, json: seq<Obj> -> string)
    returns (result: Result<()>)
    modifies browser
    ensures ExportEffect(data, filename, format, json).Success? ==>
      result == Success(()) && browser.events == old(browser.events) + ExportEffect(data, filename, format, json).value
    ensures ExportEffect(data, filename, format, json).Failure? ==>
      result == Failure(ExportEffect(data, filename, format, json).error) && browser.events == old(browser.events)
  {
    if |data| == 0 {
      browser.Warn(NoDataWarning);
      return Success(());
    }
    var content: string;
    var mimeType: string;
    var extension: string;
    if format == "csv" {
      content, mimeType, extension := ArrayToCsv(data, None), CsvMimeType, "csv";
    } else if format == "json" {
      content, mimeType, extension := json(data), JsonMimeType, "json";
    } else {
      return Failure("Unsupported export format: " + format);
    }
    var fullFilename := filename + "." + extension;
    browser.DownloadFile(content, fullFilename, mimeType);
    result := Success(());
  }

  /** The file name stem of an export: `<entity>-export-<date part of the ISO timestamp>`. */
  function ExportFilename(entity: string, isoTimestamp: string): string {
    entity + "-export-" + BeforeFirst(isoTimestamp, 'T')
  }

  /** For an ISO timestamp `<date>T<time>` the file name carries exactly `<date>`. */
  lemma ExportFilenameOfIso(entity: string, date: string, time: string)
    requires 'T' !in date
    ensures ExportFilename(entity, date + "T" + time) == entity + "-export-" + date
  {
    var s := date + "T" + time;
    assert s[..|date|] == date;
    BeforeFirstUpTo(s, 'T', |date|);
  }

  /** The record `exportRentals` receives. */
  datatype RentalExportData = RentalExportData(
    id: string, name: string, equipment: string, date: string,
    duration: string, location: string, email: string, status: string)

  /** The record `exportUsers` receives. */
  datatype UserExportData = UserExportData(
    id: string, name: string, email: string, date: string, location: string, role: string)

  const RentalExportKeys: seq<string> := ["id", "name", "equipment", "date", "duration", "location", "email", "status"]
  const UserExportKeys: seq<string> := ["id", "name", "email", "date", "location", "role"]

  /** No property is exported twice. */
  lemma RentalExportKeysDistinct()
    ensures forall a, b :: 0 <= a < b < |RentalExportKeys| ==> RentalExportKeys[a] != RentalExportKeys[b]
  {
  }

  /** No property is exported twice. */
  lemma UserExportKeysDistinct()
    ensures forall a, b :: 0 <= a < b < |UserExportKeys| ==> UserExportKeys[a] != UserExportKeys[b]
  {
  }

  /** The export keys are written as they are: none needs quoting. */
  lemma RentalExportKeysPlain()
    ensures forall k :: k in RentalExportKeys ==> !NeedsQuotes(k)
  {
  }

  /** The export keys are written as they are: none needs quoting. */
  lemma UserExportKeysPlain()
    ensures forall k :: k in UserExportKeys ==> !NeedsQuotes(k)
  {
  }

  /** `{ ...item }` for a rental export record: its properties in declaration order. */
  function RentalObj(r: RentalExportData): (o: Obj)
    ensures Keys(o) == RentalExportKeys
  {
    [Entry("id", Some(r.id)), Entry("name", Some(r.name)), Entry("equipment", Some(r.equipment)),
     Entry("date", Some(r.date)), Entry("duration", Some(r.duration)), Entry("location", Some(r.location)),
     Entry("email", Some(r.email)), Entry("status", Some(r.status))]
  }

  /** `{ ...item }` for a user export record: its properties in declaration order. */
  function UserObj(u: UserExportData): (o: Obj)
    ensures Keys(o) == UserExportKeys
  {
    [Entry("id", Some(u.id)), Entry("name", Some(u.name)), Entry("email", Some(u.email)),
     Entry("date", Some(u.date)), Entry("location", Some(u.location)), Entry("role", Some(u.role))]
  }

  function RentalObjs(data: seq<RentalExportData>): (os: seq<Obj>)
    ensures |os| == |data|
  {
    seq(|data|, i requires 0 <= i < |data| => RentalObj(data[i]))
  }

  function UserObjs(data: seq<UserExportData>): (os: seq<Obj>)
    ensures |os| == |data|
  {
    seq(|data|, i requires 0 <= i < |data| => UserObj(data[i]))
  }

  /** `exportRentals(data, format = 'csv')`, with the clock reading passed in as `isoTimestamp`. */
  method ExportRentals(browser: Browser, data: seq<RentalExportData>, isoTimestamp: string, json: seq<Obj> -> string, format: string := "csv")
    returns (result: Result<()>)
    modifies browser
    ensures var effect := ExportEffect(RentalObjs(data), ExportFilename("rentals", isoTimestamp), format, json);
      && (effect.Success? ==> result == Success(()) && browser.events == old(browser.events) + effect.value)
      && (effect.Failure? ==> result == Failure(effect.error) && browser.events == old(browser.events))
  {
    var timestamp := BeforeFirst(isoTimestamp, 'T');
    assert "rentals-export-" + timestamp == ExportFilename("rentals", isoTimestamp);
    result := ExportData(browser, RentalObjs(data), "rentals-export-" + timestamp, format, json);
  }

  /** `exportUsers(data, format = 'csv')`, with the clock reading passed in as `isoTimestamp`. */
  method ExportUsers(browser: Browser, data: seq<UserExportData>, isoTimestamp: string, json: seq<Obj> -> string, format: string := "csv")
    returns (result: Result<()>)
    modifies browser
    ensures var effect := ExportEffect(UserObjs(data), ExportFilename("users", isoTimestamp), format, json);
      && (effect.Success? ==> result == Success(()) && browser.events == old(browser.events) + effect.value)
      && (effect.Failure? ==> result == Failure(effect.error) && browser.events == old(browser.events))
  {
    var timestamp := BeforeFirst(isoTimestamp, 'T');
    assert "users-export-" + timestamp == ExportFilename("users", isoTimestamp);
    result := ExportData(browser, UserObjs(data), "users-export-" + timestamp, format, json);
  }
}
