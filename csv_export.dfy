/** The text that `exportToCSV` (src/helpers/index.js) builds from an array of
    records: a header row of the first record's keys, then one row per
    record in which every field is quoted and its quotes doubled, as section 2
    of RFC 4180 describes. The Blob and the download link are not modelled. */
module CsvExport {
  import opened Strings
  import opened JsValues

  // ------------------------------------------------------------ JSON.stringify

  /** Four lower-case hexadecimal digits of a code point below 0x10000. */
  function Hex4(n: nat): (r: string)
    requires n < 0x10000
    ensures |r| == 4
  {
    var digits := "0123456789abcdef";
    [digits[n / 0x1000], digits[(n / 0x100) % 16], digits[(n / 16) % 16], digits[n % 16]]
  }

  /** How JSON.stringify writes one character inside a string literal. */
  function JsonChar(c: char): string
  {
    if c == '"' then "\\\""
    else if c == '\\' then "\\\\"
    else if c as int == 8 then "\\b"
    else if c as int == 12 then "\\f"
    else if c == '\n' then "\\n"
    else if c == '\r' then "\\r"
    else if c == '\t' then "\\t"
    else if (c as int) < 0x20 then "\\u" + Hex4(c as int)
    else [c]
  }

  function JsonEscape(s: string): string
  {
    if s == [] then "" else JsonChar(s[0]) + JsonEscape(s[1..])
  }

  function JsonString(s: string): string
  {
    "\"" + JsonEscape(s) + "\""
  }

  /** The properties JSON.stringify writes: those whose value is not undefined. */
  function Defined(entries: Entries): (r: Entries)
    ensures forall i :: 0 <= i < |r| ==> r[i] in entries && r[i].1 != Undefined
  {
    if entries == [] then []
    else (if entries[0].1 == Undefined then [] else [entries[0]]) + Defined(entries[1..])
  }

  /** `JSON.stringify(v)` for the values that reach it here. An undefined array
      element is written as null; `ServerTimestamp` is the SDK's sentinel
      object, whose one own property is `_methodName`. */
  function Json(v: Value): string
    decreases v
  {
    match v
    case Undefined => "null"
    case Null => "null"
    case Bool(b) => if b then "true" else "false"
    case Num(n) => IntToString(n)
    case Str(s) => JsonString(s)
    case Array(items) =>
      "[" + Join(seq(|items|, i requires 0 <= i < |items| => Json(items[i])), ",") + "]"
    case Object(entries) =>
      var members := Defined(entries);
      "{" + Join(seq(|members|, i requires 0 <= i < |members| =>
                   assert members[i] in entries;
                   JsonString(members[i].0) + ":" + Json(members[i].1)), ",") + "}"
    case ServerTimestamp => "{\"_methodName\":\"serverTimestamp\"}"
    case Timestamp(sec, nano) =>
      "{\"seconds\":" + IntToString(sec) + ",\"nanoseconds\":" + IntToString(nano) + "}"
  }

  // ------------------------------------------------------ field text and quoting

  /** `typeof item === 'object'`: null, arrays and objects. */
  predicate IsJsObject(v: Value)
  {
    v.Null? || v.Array? || v.Object? || v.ServerTimestamp? || v.Timestamp?
  }

  /** One array element inside a field: objects as JSON, the rest as `join`
      writes them. `typeof null` is 'object', so a null element is written
      "null"; an undefined one is left empty. */
  function ItemText(item: Value): (r: string)
    ensures item.Null? ==> r == "null"
    ensures item.Undefined? ==> r == ""
    ensures item.Str? ==> r == item.s
    ensures item.Array? || item.Object? || item.ServerTimestamp? || item.Timestamp? ==> r == Json(item)
  {
    if IsJsObject(item) then Json(item)
    else
      assert item.Str? ==> Display(item) == item.s;
      ElementText(item)
  }

  /** The text of one field before quoting: arrays joined with "; " (their
      object elements as JSON), other objects as JSON, null and undefined
      as nothing, everything else by `toString`. */
  function CellText(v: Value): (r: string)
    ensures v.Null? || v.Undefined? ==> r == ""
    ensures v.Str? ==> r == v.s
    ensures v.Object? ==> r == Json(v)
  {
    match v
    case Array(items) => Join(seq(|items|, i requires 0 <= i < |items| => ItemText(items[i])), "; ")
    case Object(_) => Json(v)
    case ServerTimestamp => Json(v)
    case Timestamp(_, _) => Json(v)
    case Null => ""
    case Undefined => ""
    case _ => Display(v)
  }

  /** An array of strings becomes those strings separated by "; ". */
  lemma CellTextOfStrings(items: seq<Value>)
    requires forall i :: 0 <= i < |items| ==> items[i].Str?
    ensures CellText(Array(items)) == Join(seq(|items|, i requires 0 <= i < |items| => items[i].s), "; ")
  {
    var a := seq(|items|, i requires 0 <= i < |items| => ItemText(items[i]));
    var b := seq(|items|, i requires 0 <= i < |items| => items[i].s);
    forall i | 0 <= i < |items| ensures a[i] == b[i] {
      var v := items[i];
      assert !IsJsObject(v) && !v.Undefined? && !v.Null?;
      assert Display(v) == v.s;
      assert a[i] == ItemText(v) == ElementText(v);
    }
    assert a == b;
  }

  /** An array field is its elements' texts, in order, separated by "; ":
      nothing for no element, the element's own text for one, and the first
      element's text before the rest otherwise. */
  lemma CellTextOfArray(x: Value, rest: seq<Value>)
    ensures CellText(Array([])) == ""
    ensures CellText(Array([x])) == ItemText(x)
    ensures rest != [] ==> CellText(Array([x] + rest)) == ItemText(x) + "; " + CellText(Array(rest))
  {
    if rest != [] {
      var items := [x] + rest;
      var whole := seq(|items|, i requires 0 <= i < |items| => ItemText(items[i]));
      var tail := seq(|rest|, i requires 0 <= i < |rest| => ItemText(rest[i]));
      assert whole == [ItemText(x)] + tail;
      JoinCons(ItemText(x), tail, "; ");
    }
  }

  /** `value.replace(/"/g, '""')`. */
  function EscapeQuotes(s: string): string
  {
    if s == [] then ""
    else (if s[0] == '"' then "\"\"" else [s[0]]) + EscapeQuotes(s[1..])
  }

  /** Text without quotes needs no escaping. */
  lemma {:induction false} EscapeQuotesNoQuote(s: string)
    requires '"' !in s
    ensures EscapeQuotes(s) == s
  {
    if s != [] {
      EscapeQuotesNoQuote(s[1..]);
      assert [s[0]] + s[1..] == s;
    }
  }

  /** A data field: the text wrapped in quotes, its own quotes doubled. */
  function QuoteField(s: string): string
  {
    "\"" + EscapeQuotes(s) + "\""
  }

  // ------------------------------------------------------------ rows and file

  function QuotedFields(fields: seq<string>): (r: seq<string>)
    ensures |r| == |fields|
  {
    seq(|fields|, i requires 0 <= i < |fields| => QuoteField(fields[i]))
  }

  /** A data row: its quoted fields separated by ",". */
  function Row(fields: seq<string>): string
  {
    Join(QuotedFields(fields), ",")
  }

  /** The field texts of one record, one per header, in header order; a key
      the record lacks reads as undefined and so as the empty field. */
  function RecordFields(record: Entries, headers: seq<string>): (r: seq<string>)
    ensures |r| == |headers|
  {
    seq(|headers|, i requires 0 <= i < |headers| => CellText(Get(record, headers[i])))
  }

  function DataRows(data: seq<Entries>, headers: seq<string>): (r: seq<string>)
    ensures |r| == |data|
  {
    seq(|data|, k requires 0 <= k < |data| => Row(RecordFields(data[k], headers)))
  }

  /** `exportToCSV`: nothing for an empty array; otherwise the unquoted header
      row of the first record's keys, then the data rows, joined by "\n". */
  function ExportCsv(data: seq<Entries>): Option<string>
  {
    if data == [] then None
    else
      var headers := Keys(data[0]);
      Some(Join([Join(headers, ",")] + DataRows(data, headers), "\n"))
  }

  // ------------------------------------------------ reading the quoted rows back

  /** Reads the inside of a quoted field, starting just after its opening
      quote, up to its closing quote, turning each `""` into `"`. Yields the
      field and what follows the closing quote. */
  function ReadQuoted(s: string): (r: Option<(string, string)>)
    ensures r.Some? ==> |r.value.1| < |s|
  {
    if s == [] then None
    else if s[0] == '"' then
      if |s| >= 2 && s[1] == '"' then
        match ReadQuoted(s[2..])
        case None => None
        case Some((f, rest)) => Some(("\"" + f, rest))
      else Some(("", s[1..]))
    else
      match ReadQuoted(s[1..])
      case None => None
      case Some((f, rest)) => Some(([s[0]] + f, rest))
  }

  /** Reads quoted fields separated by "," up to a line break or the end. */
  function ReadRecord(s: string): (r: Option<(seq<string>, string)>)
    ensures r.Some? ==> |r.value.1| < |s|
    decreases |s|
  {
    if s == [] || s[0] != '"' then None
    else
      match ReadQuoted(s[1..])
      case None => None
      case Some((f, rest)) =>
        if rest != [] && rest[0] == ',' then
          match ReadRecord(rest[1..])
          case None => None
          case Some((fs, after)) => Some(([f] + fs, after))
        else Some(([f], rest))
  }

  /** Reads records of quoted fields separated by "\n". */
  function ReadRecords(s: string): Option<seq<seq<string>>>
    decreases |s|
  {
    match ReadRecord(s)
    case None => None
    case Some((fields, rest)) =>
      if rest == [] then Some([fields])
      else if rest[0] == '\n' then
        match ReadRecords(rest[1..])
        case None => None
        case Some(more) => Some([fields] + more)
      else None
  }

  /** Doubling the quotes and closing the field is undone by reading it:
      the field comes back unchanged, and so does what follows. */
  lemma {:induction false} ReadQuotedEscaped(x: string, rest: string)
    requires rest == [] || rest[0] != '"'
    ensures ReadQuoted(EscapeQuotes(x) + "\"" + rest) == Some((x, rest))
  {
    var s := EscapeQuotes(x) + "\"" + rest;
    if x == [] {
      assert s == "\"" + rest;
      assert s[1..] == rest;
    } else {
      ReadQuotedEscaped(x[1..], rest);
      var tail := EscapeQuotes(x[1..]) + "\"" + rest;
      if x[0] == '"' {
        assert s == "\"\"" + tail;
        assert s[2..] == tail;
        assert "\"" + x[1..] == x;
      } else {
        assert s == [x[0]] + tail;
        assert s[1..] == tail;
        assert [x[0]] + x[1..] == x;
      }
    }
  }

  /** Section 2 item 7 of RFC 4180: a field written by `QuoteField` reads back
      as the original text. */
  lemma QuoteFieldRoundTrip(x: string)
    ensures var s := QuoteField(x); |s| >= 2 && s[0] == '"' && ReadQuoted(s[1..]) == Some((x, ""))
  {
    ReadQuotedEscaped(x, "");
    var s := QuoteField(x);
    assert s[1..] == EscapeQuotes(x) + "\"" + "";
  }

  /** A quoted field followed by a line break or the end is the last of its record. */
  lemma ReadRecordLastField(x: string, rest: string)
    requires rest == [] || rest[0] == '\n'
    ensures ReadRecord(QuoteField(x) + rest) == Some(([x], rest))
  {
    var s := QuoteField(x) + rest;
    assert s[0] == '"';
    assert s[1..] == EscapeQuotes(x) + "\"" + rest;
    ReadQuotedEscaped(x, rest);
    assert ReadQuoted(s[1..]) == Some((x, rest));
  }

  /** A quoted field followed by "," is the first field of what the rest reads as. */
  lemma ReadRecordNextField(x: string, tail: string)
    ensures ReadRecord(QuoteField(x) + ("," + tail)) ==
      match ReadRecord(tail)
      case None => None
      case Some((fs, after)) => Some(([x] + fs, after))
  {
    var rest := "," + tail;
    var s := QuoteField(x) + rest;
    assert s[0] == '"';
    assert s[1..] == EscapeQuotes(x) + "\"" + rest;
    ReadQuotedEscaped(x, rest);
    assert ReadQuoted(s[1..]) == Some((x, rest));
    assert rest[1..] == tail;
  }

  /** A row reads back as its fields, leaving what follows the row. */
  lemma {:induction false} ReadRecordRow(fields: seq<string>, rest: string)
    requires |fields| >= 1
    requires rest == [] || rest[0] == '\n'
    ensures ReadRecord(Row(fields) + rest) == Some((fields, rest))
  {
    var q := QuotedFields(fields);
    if |fields| == 1 {
      assert Row(fields) == QuoteField(fields[0]);
      ReadRecordLastField(fields[0], rest);
      assert [fields[0]] == fields;
    } else {
      var more := fields[1..];
      assert QuotedFields(more) == q[1..];
      JoinCons(q[0], q[1..], ",");
      assert [q[0]] + q[1..] == q;
      var tail := Row(more) + rest;
      assert Row(fields) + rest == QuoteField(fields[0]) + ("," + tail);
      ReadRecordNextField(fields[0], tail);
      ReadRecordRow(more, rest);
      assert [fields[0]] + more == fields;
    }
  }

  function Rows(records: seq<seq<string>>): (r: seq<string>)
    ensures |r| == |records|
  {
    seq(|records|, k requires 0 <= k < |records| => Row(records[k]))
  }

  /** Rows joined by "\n" read back as the records they were written from,
      in order, each with all of its fields. */
  lemma {:induction false} ReadRecordsRows(records: seq<seq<string>>)
    requires |records| >= 1
    requires forall k :: 0 <= k < |records| ==> |records[k]| >= 1
    ensures ReadRecords(Join(Rows(records), "\n")) == Some(records)
  {
    var rows := Rows(records);
    if |records| == 1 {
      ReadRecordRow(records[0], "");
      assert Row(records[0]) + "" == Row(records[0]);
      assert Join(rows, "\n") == Row(records[0]);
      assert [records[0]] == records;
    } else {
      var more := records[1..];
      var tail := Join(Rows(more), "\n");
      RowsSplit(records);
      ReadRecordRow(records[0], "\n" + tail);
      ReadRecordsRows(more);
      assert ("\n" + tail)[1..] == tail;
      assert [records[0]] + more == records;
    }
  }

  /** The text of several rows is the first row, a line break, and the rest. */
  lemma RowsSplit(records: seq<seq<string>>)
    requires |records| >= 2
    ensures Join(Rows(records), "\n") == Row(records[0]) + ("\n" + Join(Rows(records[1..]), "\n"))
  {
    var rows := Rows(records);
    assert Rows(records[1..]) == rows[1..];
    JoinCons(rows[0], rows[1..], "\n");
    assert [rows[0]] + rows[1..] == rows;
  }

  /** What `exportToCSV` promises about its text: none for no records; else
      the header row is the first record's keys joined by "," and comes first,
      and the rest reads back, record by record, as one field per header, in
      header order, each the text of that record's value. */
  lemma ExportCsvReadsBack(data: seq<Entries>)
    ensures data == [] <==> ExportCsv(data).None?
    ensures data != [] && |Keys(data[0])| >= 1 ==>
      var headers := Keys(data[0]);
      exists body ::
        && ExportCsv(data) == Some(Join(headers, ",") + "\n" + body)
        && ReadRecords(body) == Some(seq(|data|, k requires 0 <= k < |data| => RecordFields(data[k], headers)))
  {
    if data != [] && |Keys(data[0])| >= 1 {
      var headers := Keys(data[0]);
      var records := seq(|data|, k requires 0 <= k < |data| => RecordFields(data[k], headers));
      var rows := DataRows(data, headers);
      assert Rows(records) == rows;
      ReadRecordsRows(records);
      var body := Join(rows, "\n");
      JoinCons(Join(headers, ","), rows, "\n");
      assert ExportCsv(data) == Some(Join(headers, ",") + "\n" + body);
    }
  }

  /** The header row is the first line when no key holds a line break. */
  lemma ExportCsvHeaderLine(data: seq<Entries>)
    requires data != []
    requires Free(Keys(data[0]), '\n')
    ensures Split(ExportCsv(data).value, '\n')[0] == Join(Keys(data[0]), ",")
  {
    var header := Join(Keys(data[0]), ",");
    JoinFree(Keys(data[0]), ",", '\n');
    var rows := DataRows(data, Keys(data[0]));
    JoinCons(header, rows, "\n");
    var after := "\n" + Join(rows, "\n");
    assert ExportCsv(data).value == header + after;
    SplitFreePrefix(header, after, '\n');
    assert after[0] == '\n' && after[1..] == Join(rows, "\n");
    assert Split(after, '\n')[0] == "";
  }

  /** A one-record export: `[{a: 1, b: ["x", "y"]}]` gives the unquoted
      header `a,b` and the row `"1","x; y"`. */
  lemma ExportCsvExample()
    ensures ExportCsv([[("a", Num(1)), ("b", Array([Str("x"), Str("y")]))]])
         == Some("a,b\n\"1\",\"x; y\"")
  {
    var rec: Entries := [("a", Num(1)), ("b", Array([Str("x"), Str("y")]))];
    ExampleKeys(rec);
    ExampleDataRows(rec);
    ExampleHeader();
    ExampleLines();
  }

  lemma ExampleDataRows(rec: Entries)
    requires rec == [("a", Num(1)), ("b", Array([Str("x"), Str("y")]))]
    ensures DataRows([rec], ["a", "b"]) == ["\"1\",\"x; y\""]
  {
    ExampleFields(rec);
    ExampleRow();
  }

  lemma ExampleHeader()
    ensures Join(["a", "b"], ",") == "a,b"
  {
    JoinCons("a", ["b"], ",");
  }

  lemma ExampleLines()
    ensures Join(["a,b"] + ["\"1\",\"x; y\""], "\n") == "a,b\n\"1\",\"x; y\""
  {
    var row := "\"1\",\"x; y\"";
    JoinCons("a,b", [row], "\n");
    assert "a,b" + "\n" + row == "a,b\n\"1\",\"x; y\"" by {
      assert |"a,b" + "\n" + row| == 14;
    }
  }

  lemma ExampleKeys(rec: Entries)
    requires rec == [("a", Num(1)), ("b", Array([Str("x"), Str("y")]))]
    ensures Keys(rec) == ["a", "b"]
  {
    assert rec[1..] == [("b", Array([Str("x"), Str("y")]))];
  }

  lemma ExampleRow()
    ensures Row(["1", "x; y"]) == "\"1\",\"x; y\""
  {
    var fields := ["1", "x; y"];
    QuotePlain("1");
    QuotePlain("x; y");
    assert "\"" + "1" + "\"" == "\"1\"";
    assert "\"" + "x; y" + "\"" == "\"x; y\"";
    assert QuotedFields(fields) == [QuoteField("1"), QuoteField("x; y")];
    JoinCons("\"1\"", ["\"x; y\""], ",");
    assert "\"1\"" + "," + "\"x; y\"" == "\"1\",\"x; y\"";
  }

  /** A field without quotes is only wrapped in them. */
  lemma QuotePlain(s: string)
    requires '"' !in s
    ensures QuoteField(s) == "\"" + s + "\""
  {
    EscapeQuotesNoQuote(s);
  }

  lemma ExampleFields(rec: Entries)
    requires rec == [("a", Num(1)), ("b", Array([Str("x"), Str("y")]))]
    ensures RecordFields(rec, ["a", "b"]) == ["1", "x; y"]
  {
    assert Get(rec, "a") == Num(1) by {
      assert rec[1..] == [("b", Array([Str("x"), Str("y")]))];
      assert Keys(rec[1..]) == ["b"];
    }
    assert Get(rec, "b") == Array([Str("x"), Str("y")]) by {
      assert rec[1..] == [("b", Array([Str("x"), Str("y")]))];
      assert Keys(rec[1..]) == ["b"];
    }
    CellTextOfStrings([Str("x"), Str("y")]);
    var strs := seq(2, i requires 0 <= i < 2 => [Str("x"), Str("y")][i].s);
    assert strs == ["x", "y"];
    JoinCons("x", ["y"], "; ");
    assert CellText(Num(1)) == "1" by {
      assert IntToString(1) == "1";
    }
    var r := RecordFields(rec, ["a", "b"]);
    assert r[0] == "1" && r[1] == "x; y";
  }
}
