/** The audit CSV export and a reader for section 2 of RFC 4180, with LF as the record end. */
module AuditCsv {
  import opened Common
  import opened AuditStore

  predicate Special(c: char) { c == '"' || c == ',' || c == '\r' || c == '\n' }

  predicate NeedsQuotes(v: string) { exists i :: 0 <= i < |v| && Special(v[i]) }

  /** Every double quote written twice. */
  function Doubled(v: string): string {
    if v == "" then ""
    else (if v[0] == '"' then ['"', '"'] else [v[0]]) + Doubled(v[1..])
  }

  function CsvCell(v: string): string {
    if NeedsQuotes(v) then ['"'] + Doubled(v) + ['"'] else v
  }

  function Join(fields: seq<string>): string {
    if fields == [] then ""
    else if |fields| == 1 then CsvCell(fields[0])
    else CsvCell(fields[0]) + "," + Join(fields[1..])
  }

  const COLUMNS := ["id", "entityType", "entityId", "action", "actorId", "createdAt", "beforeJson", "afterJson", "metadataJson"]

  /** names.join(","). */
  function JoinNames(names: seq<string>): string {
    if names == [] then "" else if |names| == 1 then names[0] else names[0] + "," + JoinNames(names[1..])
  }

  const HEADER := JoinNames(COLUMNS)

  function Fields(log: AuditLog): (f: seq<string>)
    ensures |f| == 9
  {
    [ log.id, log.entityType, log.entityId, log.action, log.actorId, log.createdAt,
      log.before.GetOr(""), log.after.GetOr(""), log.metadata.GetOr("") ]
  }

  function AuditLogToCsvRow(log: AuditLog): string { Join(Fields(log)) }

  /** Rows, each ended by LF. */
  function Lines(logs: seq<AuditLog>): string {
    if logs == [] then "" else AuditLogToCsvRow(logs[0]) + "\n" + Lines(logs[1..])
  }

  lemma {:induction false} LinesAppend(a: seq<AuditLog>, b: seq<AuditLog>)
    ensures Lines(a + b) == Lines(a) + Lines(b)
  {
    if a == [] {
      assert a + b == b;
    } else {
      assert (a + b)[1..] == a[1..] + b;
      LinesAppend(a[1..], b);
    }
  }

  lemma LinesEmpty(logs: seq<AuditLog>)
    ensures Lines(logs[..0]) == ""
  {
  }

  lemma LinesExtend(logs: seq<AuditLog>, k: nat)
    requires k < |logs|
    ensures Lines(logs[..k + 1]) == Lines(logs[..k]) + AuditLogToCsvRow(logs[k]) + "\n"
  {
    hide AuditLogToCsvRow;
    assert logs[..k + 1] == logs[..k] + [logs[k]];
    LinesAppend(logs[..k], [logs[k]]);
    assert Lines([logs[k]]) == AuditLogToCsvRow(logs[k]) + "\n" + Lines([]);
  }

  // ---- the export loop ----

  const BOM := "\U{FEFF}"

  /** What the client should receive: the first maxExport rows of the sorted list. */
  function Exported(sorted: seq<AuditLog>, maxExport: nat): string {
    BOM + HEADER + "\n" + Lines(sorted[..Min(maxExport, |sorted|)])
  }

  /** The handler's paging loop; terminates for every list and limit. */
  method ExportCsv(logs: seq<AuditLog>, f: Filtering, loc: Locale, maxExport: nat) returns (out: string)
    ensures out == Exported(ListAudits(logs, f, loc), maxExport)
  {
    ghost var sorted := ListAudits(logs, f, loc);
    hide Lines, AuditLogToCsvRow, ListAudits, HEADER, JoinNames, BOM;
    var pageSize := Min(500, maxExport);
    ghost var head := BOM + HEADER + "\n";
    out := BOM;
    out := out + HEADER + "\n";
    var exported, offset := 0, 0;
    LinesEmpty(sorted);
    while exported < maxExport
      invariant exported == offset <= |sorted| && exported <= maxExport
      invariant out == head + Lines(sorted[..exported])
      decreases maxExport - exported
    {
      var take := Min(pageSize, maxExport - exported);
      var page := ListAuditsPage(logs, f, loc, take, offset);
      ghost var base := exported;
      for i := 0 to |page.items|
        invariant exported == base + i
        invariant out == head + Lines(sorted[..exported])
      {
        LinesExtend(sorted, exported);
        out := out + AuditLogToCsvRow(page.items[i]) + "\n";
        exported := exported + 1;
        if exported >= maxExport { break; }
      }
      if |page.items| == 0 { break; }
      offset := offset + |page.items|;
      if offset >= page.total { break; }
    }
  }

  // ---- reading it back ----

  datatype Parsed<T> = Bad | Good(value: T, rest: string)

  function ParsePlain(s: string): (r: Parsed<string>)
    ensures r.Good? ==> |r.rest| <= |s|
  {
    if s == "" || s[0] == ',' || s[0] == '\n' then Good("", s)
    else if s[0] == '"' || s[0] == '\r' then Bad
    else
      match ParsePlain(s[1..])
      case Bad => Bad
      case Good(v, rest) => Good([s[0]] + v, rest)
  }

  /** After the opening quote: a doubled quote is a quote, a single one closes. */
  function ParseQuoted(s: string): (r: Parsed<string>)
    ensures r.Good? ==> |r.rest| < |s|
  {
    if s == "" then Bad
    else if s[0] == '"' && (|s| == 1 || s[1] != '"') then Good("", s[1..])
    else
      var skip := if s[0] == '"' then 2 else 1;
      match ParseQuoted(s[skip..])
      case Bad => Bad
      case Good(v, rest) => Good([s[0]] + v, rest)
  }

  function ParseField(s: string): (r: Parsed<string>)
    ensures r.Good? ==> |r.rest| <= |s|
  {
    if s != "" && s[0] == '"' then ParseQuoted(s[1..]) else ParsePlain(s)
  }

  function ParseRecord(s: string): (r: Parsed<seq<string>>)
    ensures r.Good? && s != "" ==> |r.rest| < |s|
    decreases |s|
  {
    match ParseField(s)
    case Bad => Bad
    case Good(f, rest) =>
      if rest == "" then Good([f], "")
      else if rest[0] == '\n' then Good([f], rest[1..])
      else if rest[0] == ',' then
        match ParseRecord(rest[1..])
        case Bad => Bad
        case Good(fs, tail) => if |tail| < |s| then Good([f] + fs, tail) else Bad
      else Bad
  }

  function ParseFile(s: string): Option<seq<seq<string>>>
    decreases |s|
  {
    if s == "" then Some([])
    else
      match ParseRecord(s)
      case Bad => None
      case Good(r, rest) =>
        match ParseFile(rest)
        case None => None
        case Some(rs) => Some([r] + rs)
  }

  lemma {:induction false} QuotedParses(v: string, t: string)
    requires t == "" || t[0] != '"'
    ensures ParseQuoted(Doubled(v) + ['"'] + t) == Good(v, t)
  {
    var s := Doubled(v) + ['"'] + t;
    if v == "" {
      assert s == ['"'] + t;
    } else {
      QuotedParses(v[1..], t);
      var first := if v[0] == '"' then ['"', '"'] else [v[0]];
      assert s == first + (Doubled(v[1..]) + ['"'] + t);
      assert s[|first|..] == Doubled(v[1..]) + ['"'] + t;
      assert v == [v[0]] + v[1..];
    }
  }

  lemma {:induction false} PlainParses(v: string, t: string)
    requires !NeedsQuotes(v) && (t == "" || t[0] == ',' || t[0] == '\n')
    ensures ParsePlain(v + t) == Good(v, t)
  {
    if v == "" {
      assert v + t == t;
    } else {
      assert !Special(v[0]);
      assert !NeedsQuotes(v[1..]) by {
        forall i | 0 <= i < |v[1..]| ensures !Special(v[1..][i]) { assert v[1..][i] == v[i + 1]; }
      }
      PlainParses(v[1..], t);
      assert (v + t)[1..] == v[1..] + t && (v + t)[0] == v[0];
      assert v == [v[0]] + v[1..];
    }
  }

  lemma CellParses(v: string, t: string)
    requires t == "" || t[0] == ',' || t[0] == '\n'
    ensures ParseField(CsvCell(v) + t) == Good(v, t)
  {
    hide ParseQuoted, ParsePlain, Doubled;
    if NeedsQuotes(v) {
      QuotedParses(v, t);
      assert (CsvCell(v) + t)[1..] == Doubled(v) + ['"'] + t;
    } else {
      PlainParses(v, t);
      assert v != "" ==> (v + t)[0] == v[0] && !Special(v[0]);
    }
  }

  lemma {:induction false} RecordParses(fields: seq<string>, t: string)
    requires fields != []
    ensures ParseRecord(Join(fields) + "\n" + t) == Good(fields, t)
  {
    hide ParseField, CsvCell, ParseRecord;
    var s := Join(fields) + "\n" + t;
    if |fields| == 1 {
      LastField(fields[0], t);
      assert s == CsvCell(fields[0]) + ("\n" + t);
      assert fields == [fields[0]];
    } else {
      var more := Join(fields[1..]) + "\n" + t;
      RecordParses(fields[1..], t);
      FirstField(fields[0], more, fields[1..], t);
      assert s == CsvCell(fields[0]) + ("," + more);
      assert fields == [fields[0]] + fields[1..];
    }
  }

  lemma LastField(v: string, t: string)
    ensures ParseRecord(CsvCell(v) + ("\n" + t)) == Good([v], t)
  {
    hide ParseField, CsvCell;
    CellParses(v, "\n" + t);
    assert ("\n" + t)[1..] == t;
  }

  lemma FirstField(v: string, more: string, fields: seq<string>, t: string)
    requires ParseRecord(more) == Good(fields, t)
    ensures ParseRecord(CsvCell(v) + ("," + more)) == Good([v] + fields, t)
  {
    hide ParseField, CsvCell;
    CellParses(v, "," + more);
    assert ("," + more)[1..] == more;
  }

  function AllFields(logs: seq<AuditLog>): seq<seq<string>> {
    if logs == [] then [] else [Fields(logs[0])] + AllFields(logs[1..])
  }

  lemma {:induction false} LinesParse(logs: seq<AuditLog>)
    ensures ParseFile(Lines(logs)) == Some(AllFields(logs))
  {
    if logs != [] {
      RecordParses(Fields(logs[0]), Lines(logs[1..]));
      LinesParse(logs[1..]);
      assert Lines(logs) == Join(Fields(logs[0])) + "\n" + Lines(logs[1..]);
    }
  }

  /** A conforming reader gets back exactly the nine field strings of the exported logs,
      in list order, whatever characters they contain. */
  lemma ExportRoundTrip(sorted: seq<AuditLog>, maxExport: nat)
    ensures ParseFile(Exported(sorted, maxExport)[|BOM + HEADER + "\n"|..])
         == Some(AllFields(sorted[..Min(maxExport, |sorted|)]))
  {
    hide Lines, ParseFile, AllFields;
    LinesParse(sorted[..Min(maxExport, |sorted|)]);
  }

  // ---- the columns ----

  /** What a column is called is what it holds. */
  function Column(log: AuditLog, name: string): string {
    if name == "id" then log.id
    else if name == "entityType" then log.entityType
    else if name == "entityId" then log.entityId
    else if name == "action" then log.action
    else if name == "actorId" then log.actorId
    else if name == "createdAt" then log.createdAt
    else if name == "beforeJson" then log.before.GetOr("")
    else if name == "afterJson" then log.after.GetOr("")
    else if name == "metadataJson" then log.metadata.GetOr("")
    else ""
  }

  /** A record has the log's value under each column's name. */
  ghost predicate Shows(record: seq<string>, log: AuditLog) {
    |record| == 9 && forall c :: 0 <= c < 9 ==> record[c] == Column(log, COLUMNS[c])
  }

  lemma FieldsByName(log: AuditLog, c: nat)
    requires c < 9
    ensures Fields(log)[c] == Column(log, COLUMNS[c])
  {
  }

  lemma {:induction false} AllFieldsAt(logs: seq<AuditLog>, i: nat)
    requires i < |logs|
    ensures |AllFields(logs)| == |logs| && AllFields(logs)[i] == Fields(logs[i])
  {
    if |logs| > 1 { AllFieldsAt(logs[1..], if i > 0 then i - 1 else 0); }
  }

  /** No column name needs quotes, so the header line is their plain list. */
  lemma HeaderIsColumns()
    ensures HEADER == Join(COLUMNS)
  {
    hide Join, JoinNames;
    forall i | 0 <= i < 9 ensures CsvCell(COLUMNS[i]) == COLUMNS[i] { PlainCell(COLUMNS[i]); }
    JoinPlain(COLUMNS);
  }

  lemma {:induction false} JoinPlain(names: seq<string>)
    requires forall i :: 0 <= i < |names| ==> CsvCell(names[i]) == names[i]
    ensures JoinNames(names) == Join(names)
  {
    hide CsvCell;
    if |names| > 1 {
      forall i | 0 <= i < |names[1..]| ensures names[1..][i] == names[i + 1] {}
      JoinPlain(names[1..]);
    }
  }

  lemma PlainCell(v: string)
    requires forall i :: 0 <= i < |v| ==> v[i] != '"' && v[i] != ',' && v[i] != '\r' && v[i] != '\n'
    ensures CsvCell(v) == v
  {
  }

  /** The export as a conforming reader sees it: after the byte order mark a line with the nine
      column names, then for each of the first min(limit, total) logs of the list a record with
      each column's value under its name. */
  lemma ExportReadsBack(sorted: seq<AuditLog>, maxExport: nat)
    ensures var out := Exported(sorted, maxExport);
            && out != "" && out[0] == '\U{FEFF}'
            && var read := ParseFile(out[1..]);
               && read.Some? && |read.value| == 1 + Min(maxExport, |sorted|) && read.value[0] == COLUMNS
               && forall i :: 0 <= i < Min(maxExport, |sorted|) ==> Shows(read.value[i + 1], sorted[i])
  {
    hide Lines, ParseFile, AllFields, Join, ParseRecord, Shows, COLUMNS, HEADER, JoinNames, Fields;
    var kept := sorted[..Min(maxExport, |sorted|)];
    var out := Exported(sorted, maxExport);
    assert out[1..] == HEADER + "\n" + Lines(kept);
    HeaderAndLines(kept);
    AllFieldsLength(kept);
    var read := ParseFile(out[1..]);
    forall i | 0 <= i < |kept| ensures Shows(read.value[i + 1], sorted[i]) {
      RecordShows(kept, i);
      assert read.value[i + 1] == AllFields(kept)[i];
    }
  }

  lemma HeaderAndLines(logs: seq<AuditLog>)
    ensures ParseFile(HEADER + "\n" + Lines(logs)) == Some([COLUMNS] + AllFields(logs))
  {
    hide Lines, ParseFile, AllFields, Join, ParseRecord, JoinNames;
    HeaderIsColumns();
    RecordParses(COLUMNS, Lines(logs));
    LinesParse(logs);
    FirstRecord(HEADER + "\n" + Lines(logs), COLUMNS, Lines(logs), AllFields(logs));
  }

  lemma RecordShows(logs: seq<AuditLog>, i: nat)
    requires i < |logs|
    ensures |AllFields(logs)| == |logs| && Shows(AllFields(logs)[i], logs[i])
  {
    hide AllFields, Column;
    AllFieldsAt(logs, i);
    forall c | 0 <= c < 9 ensures Fields(logs[i])[c] == Column(logs[i], COLUMNS[c]) { FieldsByName(logs[i], c); }
  }

  lemma {:induction false} AllFieldsLength(logs: seq<AuditLog>)
    ensures |AllFields(logs)| == |logs|
  {
    if logs != [] { AllFieldsLength(logs[1..]); }
  }

  lemma FirstRecord(s: string, record: seq<string>, rest: string, more: seq<seq<string>>)
    requires s != "" && ParseRecord(s) == Good(record, rest) && ParseFile(rest) == Some(more)
    ensures ParseFile(s) == Some([record] + more)
  {
    hide ParseRecord;
  }
}
