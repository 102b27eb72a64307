/** The CSV report: how `csv.DictWriter` writes it, how RFC 4180 reads it, and the bytes the two stores emit. */
module Csv {
  import opened Basics
  import opened Numerals

  const CR: char := '\r'
  const LF: char := '\n'
  const QUOTE: char := '\"'
  const CRLF: string := "\r\n"

  type Row = fields: seq<string> | fields != [] witness [""]

  /* ---- writing: the default dialect, quoting only where needed ---- */

  /** A character that forces its field into quotes. */
  predicate Special(ch: char) {
    ch == ',' || ch == QUOTE || ch == CR || ch == LF
  }

  predicate Plain(field: string) {
    forall ch :: ch in field ==> !Special(ch)
  }

  function Doubled(field: string): string {
    if field == "" then "" else (if field[0] == QUOTE then [QUOTE, QUOTE] else [field[0]]) + Doubled(field[1..])
  }

  /** A lone empty field is quoted too, or its record would be an empty line. */
  function FieldText(field: string, alone: bool): string {
    if Plain(field) && !(alone && field == "") then field else [QUOTE] + Doubled(field) + [QUOTE]
  }

  function FieldsText(fields: Row, alone: bool): string
    decreases |fields|
  {
    if |fields| == 1 then FieldText(fields[0], alone)
    else FieldText(fields[0], false) + "," + FieldsText(fields[1..], false)
  }

  function RowText(fields: Row): string {
    FieldsText(fields, |fields| == 1) + CRLF
  }

  function FileText(rows: seq<Row>): string {
    if rows == [] then "" else RowText(rows[0]) + FileText(rows[1..])
  }

  /** Only a field with a comma, a quote or a line break is quoted, and the one empty field of a record. */
  lemma QuotedOnlyWhereNeeded(field: string, alone: bool)
    ensures FieldText(field, alone) == field <==>
            ',' !in field && '\"' !in field && '\r' !in field && '\n' !in field && !(alone && field == "")
    ensures FieldText(field, alone) != field ==>
              FieldText(field, alone)[0] == '\"' && FieldText(field, alone)[|FieldText(field, alone)| - 1] == '\"'
  {
    DoubledIsLonger(field);
    assert Plain(field) <==> ',' !in field && '\"' !in field && '\r' !in field && '\n' !in field by {
      if Plain(field) {
        assert Special(',') && Special('\"') && Special('\r') && Special('\n');
      }
    }
  }

  lemma {:induction false} DoubledIsLonger(field: string)
    ensures |field| <= |Doubled(field)|
  {
    if field != "" {
      DoubledIsLonger(field[1..]);
    }
  }

  /* ---- reading: section 2 of RFC 4180 ---- */

  /** After an opening quote: up to the closing one, a doubled quote standing for one. */
  function ReadQuoted(s: string): Option<Read<string>> {
    if s == "" then None
    else if s[0] != QUOTE then
      match ReadQuoted(s[1..])
      case None => None
      case Some(r) => Some(Read([s[0]] + r.value, r.rest))
    else if |s| > 1 && s[1] == QUOTE then
      match ReadQuoted(s[2..])
      case None => None
      case Some(r) => Some(Read([QUOTE] + r.value, r.rest))
    else Some(Read("", s[1..]))
  }

  /** Text data up to the next comma, quote or line break. */
  function ReadPlain(s: string): Read<string> {
    if s == "" || Special(s[0]) then Read("", s)
    else var r := ReadPlain(s[1..]); Read([s[0]] + r.value, r.rest)
  }

  function ReadField(s: string): Option<Read<string>> {
    if s != "" && s[0] == QUOTE then ReadQuoted(s[1..]) else Some(ReadPlain(s))
  }

  lemma {:induction false} ReadQuotedShrinks(s: string)
    ensures ReadQuoted(s).Some? ==> |ReadQuoted(s).value.rest| < |s|
    decreases |s|
  {
    if s != "" {
      ReadQuotedShrinks(s[1..]);
      if |s| > 1 {
        ReadQuotedShrinks(s[2..]);
      }
    }
  }

  lemma {:induction false} ReadPlainShrinks(s: string)
    ensures |ReadPlain(s).rest| <= |s|
    decreases |s|
  {
    if s != "" {
      ReadPlainShrinks(s[1..]);
    }
  }

  lemma ReadFieldShrinks(s: string)
    ensures ReadField(s).Some? ==> |ReadField(s).value.rest| <= |s|
  {
    ReadPlainShrinks(s);
    if s != "" {
      ReadQuotedShrinks(s[1..]);
    }
  }

  /** Fields between commas, up to a line break or the end of the file. */
  function ReadRecord(s: string): Option<Read<Row>>
    decreases |s|
  {
    ReadFieldShrinks(s);
    match ReadField(s)
    case None => None
    case Some(f) =>
      if f.rest == "" then Some(Read([f.value], ""))
      else if CRLF <= f.rest then Some(Read([f.value], f.rest[2..]))
      else if f.rest[0] != ',' then None
      else
        match ReadRecord(f.rest[1..])
        case None => None
        case Some(r) => Some(Read([f.value] + r.value, r.rest))
  }

  lemma {:induction false} ReadRecordShrinks(s: string)
    requires s != ""
    ensures ReadRecord(s).Some? ==> |ReadRecord(s).value.rest| < |s|
    decreases |s|
  {
    ReadFieldShrinks(s);
    var f := ReadField(s);
    if f.Some? && f.value.rest != "" && f.value.rest[0] == ',' {
      if f.value.rest[1..] != "" {
        ReadRecordShrinks(f.value.rest[1..]);
      }
    }
  }

  function ReadFile(s: string): Option<seq<Row>>
    decreases |s|
  {
    if s == "" then Some([])
    else
      ReadRecordShrinks(s);
      match ReadRecord(s)
      case None => None
      case Some(r) =>
        match ReadFile(r.rest)
        case None => None
        case Some(rows) => Some([r.value] + rows)
  }

  /* ---- round trip ---- */

  lemma {:induction false} ReadsQuoted(field: string, rest: string)
    requires rest == "" || rest[0] != QUOTE
    ensures ReadQuoted(Doubled(field) + [QUOTE] + rest) == Some(Read(field, rest))
    decreases |field|
  {
    var s := Doubled(field) + [QUOTE] + rest;
    if field == "" {
      assert s == [QUOTE] + rest && s[1..] == rest;
    } else {
      var tail := Doubled(field[1..]) + [QUOTE] + rest;
      ReadsQuoted(field[1..], rest);
      assert field == [field[0]] + field[1..];
      if field[0] == QUOTE {
        assert s == [QUOTE, QUOTE] + tail && s[2..] == tail;
      } else {
        assert s == [field[0]] + tail && s[1..] == tail;
      }
    }
  }

  lemma {:induction false} ReadsPlain(field: string, rest: string)
    requires Plain(field) && (rest == "" || Special(rest[0]))
    ensures ReadPlain(field + rest) == Read(field, rest)
    decreases |field|
  {
    if field == "" {
      assert field + rest == rest;
    } else {
      assert (field + rest)[1..] == field[1..] + rest;
      assert forall ch :: ch in field[1..] ==> ch in field;
      ReadsPlain(field[1..], rest);
      assert field == [field[0]] + field[1..];
    }
  }

  lemma ReadsBare(field: string, rest: string)
    requires Plain(field) && rest != "" && (rest[0] == ',' || rest[0] == CR)
    ensures ReadField(field + rest) == Some(Read(field, rest))
  {
    hide ReadPlain, ReadQuoted;
    var s := field + rest;
    assert s[0] == if field == "" then rest[0] else field[0];
    assert field != "" ==> field[0] in field;
    ReadsPlain(field, rest);
  }

  lemma ReadsEnclosed(field: string, rest: string)
    requires rest != "" && (rest[0] == ',' || rest[0] == CR)
    ensures ReadField([QUOTE] + Doubled(field) + [QUOTE] + rest) == Some(Read(field, rest))
  {
    hide ReadPlain, ReadQuoted, Doubled;
    var s := [QUOTE] + Doubled(field) + [QUOTE] + rest;
    assert s[1..] == Doubled(field) + [QUOTE] + rest;
    ReadsQuoted(field, rest);
  }

  lemma ReadsField(field: string, alone: bool, rest: string)
    requires rest != "" && (rest[0] == ',' || rest[0] == CR)
    ensures ReadField(FieldText(field, alone) + rest) == Some(Read(field, rest))
  {
    hide ReadField, Doubled, Plain;
    if Plain(field) && !(alone && field == "") {
      ReadsBare(field, rest);
    } else {
      ReadsEnclosed(field, rest);
    }
  }

  lemma {:induction false} ReadsRecord(fields: Row, alone: bool, rest: string)
    ensures ReadRecord(FieldsText(fields, alone) + CRLF + rest) == Some(Read(fields, rest))
    decreases |fields|
  {
    hide ReadField, FieldText;
    var s := FieldsText(fields, alone) + CRLF + rest;
    if |fields| == 1 {
      assert s == FieldText(fields[0], alone) + (CRLF + rest);
      ReadsField(fields[0], alone, CRLF + rest);
      assert (CRLF + rest)[2..] == rest && fields == [fields[0]];
    } else {
      var tail := FieldsText(fields[1..], false) + CRLF + rest;
      assert s == FieldText(fields[0], false) + ("," + tail);
      ReadsField(fields[0], false, "," + tail);
      assert ("," + tail)[1..] == tail && fields == [fields[0]] + fields[1..];
      ReadsRecord(fields[1..], false, rest);
    }
  }

  /** Whatever the fields hold, reading the file gives back the rows written. */
  lemma {:induction false} RoundTrip(rows: seq<Row>)
    ensures ReadFile(FileText(rows)) == Some(rows)
    decreases |rows|
  {
    hide ReadRecord, FieldsText;
    if rows != [] {
      var fields, rest := rows[0], FileText(rows[1..]);
      assert FileText(rows) == FieldsText(fields, |fields| == 1) + CRLF + rest;
      ReadsRecord(fields, |fields| == 1, rest);
      RoundTrip(rows[1..]);
      assert rows == [rows[0]] + rows[1..];
    }
  }

  /* ---- the report ---- */

  const HEADER: Row := ["field", "value"]

  function ReportRows(jobId: string, jobType: string, attempts: nat): seq<Row> {
    [["job_id", jobId], ["job_type", jobType], ["attempt", Decimal(attempts)]]
  }

  /** The report of any job reads back as its header and its three rows. */
  lemma ReportReadsBack(jobId: string, jobType: string, attempts: nat)
    ensures ReadFile(FileText([HEADER] + ReportRows(jobId, jobType, attempts))) ==
            Some([["field", "value"], ["job_id", jobId], ["job_type", jobType], ["attempt", Decimal(attempts)]])
  {
    hide FileText, ReadFile, Decimal;
    var rows := [HEADER] + ReportRows(jobId, jobType, attempts);
    RoundTrip(rows);
    assert rows == [["field", "value"], ["job_id", jobId], ["job_type", jobType], ["attempt", Decimal(attempts)]];
  }

  /** For a job type without such characters the report is this text. */
  lemma PlainReportIs(jobId: string, jobType: string, attempts: nat)
    requires Plain(jobId) && Plain(jobType)
    ensures FileText([HEADER] + ReportRows(jobId, jobType, attempts)) ==
            ("field" + "," + "value" + "\r\n") + (("job_id" + "," + jobId + "\r\n") +
            (("job_type" + "," + jobType + "\r\n") + ("attempt" + "," + Decimal(attempts) + "\r\n")))
  {
    hide Decimal;
    DecimalReadsBack(attempts);
    assert Plain(Decimal(attempts)) by {
      forall ch | ch in Decimal(attempts) ensures !Special(ch) {
        assert IsDigit(ch);
      }
    }
    PairText("field", "value");
    PairText("job_id", jobId);
    PairText("job_type", jobType);
    PairText("attempt", Decimal(attempts));
    hide RowText, Plain;
    FourRows(HEADER, ["job_id", jobId], ["job_type", jobType], ["attempt", Decimal(attempts)]);
    assert [HEADER] + ReportRows(jobId, jobType, attempts) ==
           [HEADER, ["job_id", jobId], ["job_type", jobType], ["attempt", Decimal(attempts)]];
  }

  lemma FourRows(a: Row, b: Row, d: Row, e: Row)
    ensures FileText([a, b, d, e]) == RowText(a) + (RowText(b) + (RowText(d) + RowText(e)))
  {
    hide RowText;
    assert [a, b, d, e][1..] == [b, d, e] && [b, d, e][1..] == [d, e] && [d, e][1..] == [e] && [e][1..] == [];
    assert FileText([e]) == RowText(e) + "";
    assert FileText([d, e]) == RowText(d) + FileText([e]);
    assert FileText([b, d, e]) == RowText(b) + FileText([d, e]);
  }

  lemma PairText(field: string, value: string)
    requires Plain(field) && Plain(value)
    ensures RowText([field, value]) == field + "," + value + "\r\n"
  {
    var fields: Row := [field, value];
    assert fields[1..] == [value];
    var rest: Row := [value];
    assert FieldsText(rest, false) == FieldText(value, false) == value;
    assert FieldsText(fields, false) == field + "," + FieldsText(fields[1..], false);
  }

  /* ---- text streams ---- */

  // The `newline` argument of a text stream, and what it makes of line feeds written to it: the empty string and a line feed
  // leave them alone, the default turns them into the platform's separator.
  datatype Newline = Untranslated | LineFeed | Platform(separator: string)

  function Translated(mode: Newline, text: string): string {
    match mode
    case Untranslated => text
    case LineFeed => text
    case Platform(separator) => Replaced(text, separator)
  }

  function Replaced(text: string, separator: string): string {
    if text == "" then "" else (if text[0] == LF then separator else [text[0]]) + Replaced(text[1..], separator)
  }

  lemma {:induction false} PlatformUnchanged(text: string, separator: string)
    ensures Replaced(text, separator) == text <==> separator == "\n" || LF !in text
  {
    if text == "" {
    } else {
      PlatformUnchanged(text[1..], separator);
      assert text == [text[0]] + text[1..];
      ReplacedLength(text[1..], separator);
      if text[0] == LF && separator == "" {
        assert |Replaced(text, separator)| < |text|;
      } else if text[0] == LF && separator != "\n" {
        ReplacedHead(text, separator);
      }
    }
  }

  lemma {:induction false} ReplacedLength(text: string, separator: string)
    ensures separator == "" ==> |Replaced(text, separator)| <= |text|
    ensures separator != "" ==> |Replaced(text, separator)| >= |text|
  {
    if text != "" {
      ReplacedLength(text[1..], separator);
    }
  }

  lemma ReplacedHead(text: string, separator: string)
    requires text != "" && text[0] == LF && separator != "" && separator != "\n"
    ensures Replaced(text, separator) != text
  {
    ReplacedLength(text[1..], separator);
    if |separator| == 1 {
      assert Replaced(text, separator)[0] == separator[0];
      assert separator == [separator[0]];
    }
  }

  // What has been written to a stream, one chunk for each write.
  class TextStream {
    const mode: Newline
    var chunks: seq<string>

    constructor (mode: Newline)
      ensures this.mode == mode && chunks == []
    {
      this.mode := mode;
      chunks := [];
    }

    method Write(text: string)
      modifies this
      ensures chunks == old(chunks) + [Translated(mode, text)]
    {
      chunks := chunks + [Translated(mode, text)];
    }
  }

  function Concatenated(chunks: seq<string>): string {
    if chunks == [] then "" else chunks[0] + Concatenated(chunks[1..])
  }

  function Lines(mode: Newline, rows: seq<Row>): seq<string> {
    if rows == [] then [] else [Translated(mode, RowText(rows[0]))] + Lines(mode, rows[1..])
  }

  // `csv.DictWriter`: one write to the stream for each row.
  class DictWriter {
    const out: TextStream

    constructor (out: TextStream)
      ensures this.out == out
    {
      this.out := out;
    }

    method WriteRow(fields: Row)
      modifies out
      ensures out.chunks == old(out.chunks) + [Translated(out.mode, RowText(fields))]
    {
      var line := "";
      for i := 0 to |fields|
        invariant i < |fields| ==> line + FieldsText(fields[i..], |fields| == 1) == FieldsText(fields, |fields| == 1)
        invariant i == |fields| ==> line == FieldsText(fields, |fields| == 1)
        invariant out.chunks == old(out.chunks)
      {
        var last := i + 1 == |fields|;
        ghost var was, left := line, FieldsText(fields[i..], |fields| == 1);
        line := line + FieldText(fields[i], |fields| == 1) + if last then "" else ",";
        if !last {
          assert fields[i..][1..] == fields[i + 1..];
          assert was + left == line + FieldsText(fields[i + 1..], false);
        }
      }
      out.Write(line + CRLF);
    }

    /** `writeheader` and `writerows`. */
    method WriteReport(rows: seq<Row>)
      modifies out
      ensures out.chunks == old(out.chunks) + Lines(out.mode, [HEADER] + rows)
    {
      hide RowText, Translated;
      ghost var start := out.chunks;
      WriteRow(HEADER);
      assert ([HEADER] + rows)[1..] == rows;
      for i := 0 to |rows|
        invariant out.chunks + Lines(out.mode, rows[i..]) == start + Lines(out.mode, [HEADER] + rows)
      {
        ghost var was := out.chunks;
        WriteRow(rows[i]);
        assert rows[i..][1..] == rows[i + 1..];
        assert was + Lines(out.mode, rows[i..]) == out.chunks + Lines(out.mode, rows[i + 1..]);
      }
    }
  }

  lemma {:induction false} ReplacedAppend(a: string, b: string, separator: string)
    ensures Replaced(a + b, separator) == Replaced(a, separator) + Replaced(b, separator)
  {
    if a == "" {
      assert a + b == b;
    } else {
      assert (a + b)[1..] == a[1..] + b;
      ReplacedAppend(a[1..], b, separator);
    }
  }

  lemma {:induction false} PlatformLines(rows: seq<Row>, separator: string)
    ensures Concatenated(Lines(Platform(separator), rows)) == Replaced(FileText(rows), separator)
    decreases |rows|
  {
    hide RowText;
    if rows != [] {
      PlatformLines(rows[1..], separator);
      ReplacedAppend(RowText(rows[0]), FileText(rows[1..]), separator);
    }
  }

  /** Without `newline=""` a file would hold the same text if and only if the platform's separator is a line feed. */
  lemma NewlineMatters(rows: seq<Row>, separator: string)
    requires rows != []
    ensures Concatenated(Lines(Platform(separator), rows)) == FileText(rows) <==> separator == "\n"
  {
    hide Lines, Concatenated, FieldsText;
    PlatformLines(rows, separator);
    PlatformUnchanged(FileText(rows), separator);
    var t := RowText(rows[0]);
    assert t[|t| - 1] == LF;
    assert FileText(rows)[|t| - 1] == LF;
  }

  /** Without translation the chunks are the text, row by row. */
  lemma {:induction false} LinesAreTheText(mode: Newline, rows: seq<Row>)
    requires !mode.Platform?
    ensures Concatenated(Lines(mode, rows)) == FileText(rows)
    decreases |rows|
  {
    hide RowText;
    if rows != [] {
      LinesAreTheText(mode, rows[1..]);
    }
  }
}
