/** Export of records to a sheet, and import of a sheet with validation row by row. A sheet is a grid of
    cells; a row may be shorter than the header. */
module Excel {
  import opened Wrappers
  import opened ExcelText

  type Sheet = seq<seq<Cell>>

  datatype Column = Column(field: string, header: string, required: bool)

  type Data = map<string, string>

  datatype FieldError = FieldError(field: Option<string>, message: string)

  // The schema's answer; a rejection names at least one error.
  datatype Verdict = Valid | Invalid(first: FieldError, more: seq<FieldError>)

  datatype ErrorCode = TooManyRows | Validation | MissingColumn | Empty | InvalidFile

  datatype RowError = RowError(row: nat, header: Option<string>, code: ErrorCode)

  datatype ParsedRow = ParsedRow(row: nat, data: Data)

  datatype ImportResult = ImportResult(rows: seq<ParsedRow>, errors: seq<RowError>)

  // ---------- The archive ----------

  datatype ZipInfo = ZipInfo(fileSize: nat, compressSize: nat)

  datatype Limits = Limits(maxBytes: nat, maxEntries: nat, maxRatio: nat)

  function Total(infos: seq<ZipInfo>): nat {
    if infos == [] then 0 else Total(infos[..|infos| - 1]) + infos[|infos| - 1].fileSize
  }

  function Packed(info: ZipInfo): nat { if info.compressSize < 1 then 1 else info.compressSize }

  lemma {:induction false} TotalGrows(infos: seq<ZipInfo>, i: nat)
    requires i <= |infos|
    ensures Total(infos[..i]) <= Total(infos)
    decreases |infos| - i
  {
    if i == |infos| {
      assert infos[..i] == infos;
    } else {
      assert infos[..i + 1][..i] == infos[..i];
      TotalGrows(infos, i + 1);
    }
  }

  /** The total is the sum of the sizes the files unpack to. */
  lemma {:induction false} TotalAdds(a: seq<ZipInfo>, b: seq<ZipInfo>, x: ZipInfo)
    ensures Total(a + b) == Total(a) + Total(b) && Total([x]) == x.fileSize
    decreases |b|
  {
    assert [x][..0] == [];
    if b == [] {
      assert a + b == a;
    } else {
      assert (a + b)[..|a + b| - 1] == a + b[..|b| - 1];
      TotalAdds(a, b[..|b| - 1], x);
    }
  }

  predicate InBounds(infos: seq<ZipInfo>, limits: Limits) {
    && |infos| <= limits.maxEntries
    && Total(infos) <= limits.maxBytes
    && forall i | 0 <= i < |infos| :: infos[i].fileSize <= limits.maxRatio * Packed(infos[i])
  }

  /** The running checks accept exactly the archives within all three bounds. */
  method GuardZipBomb(infos: seq<ZipInfo>, limits: Limits) returns (ok: bool)
    ensures ok <==> InBounds(infos, limits)
    ensures ok <==>
      && |infos| <= limits.maxEntries && Total(infos) <= limits.maxBytes
      && forall i | 0 <= i < |infos| ::
           infos[i].fileSize <= limits.maxRatio * if infos[i].compressSize == 0 then 1 else infos[i].compressSize
  {
    if |infos| > limits.maxEntries { return false; }
    var total := 0;
    for i := 0 to |infos|
      invariant total == Total(infos[..i]) <= limits.maxBytes
      invariant forall j | 0 <= j < i :: infos[j].fileSize <= limits.maxRatio * Packed(infos[j])
    {
      assert infos[..i + 1][..i] == infos[..i];
      total := total + infos[i].fileSize;
      if total > limits.maxBytes {
        TotalGrows(infos, i + 1);
        return false;
      }
      if infos[i].fileSize > limits.maxRatio * Packed(infos[i]) { return false; }
    }
    assert infos[..|infos|] == infos;
    ok := true;
  }

  /** An upload: its central directory if it is a zip file at all, and what openpyxl makes of it: nothing,
      a workbook without a sheet, or a sheet whose rows come one by one until the XML turns out broken. */
  datatype Upload = Upload(infos: Option<seq<ZipInfo>>, book: Option<Book>)

  datatype Book = Book(sheet: Option<Sheet>, broken: bool)

  // ---------- Rows ----------

  predicate Blank(raw: seq<Cell>) { forall i | 0 <= i < |raw| :: raw[i].None? }

  function CellText(raw: seq<Cell>, at: nat): string { FromCell(if at < |raw| then raw[at] else None) }

  predicate Covers(headerMap: map<string, nat>, columns: seq<Column>) {
    forall c | c in columns :: c.header in headerMap
  }

  /** What the schema is given: an empty optional field is left out. */
  function RowData(columns: seq<Column>, headerMap: map<string, nat>, raw: seq<Cell>): Data
    requires Covers(headerMap, columns)
  {
    if columns == [] then map[]
    else
      var c := columns[|columns| - 1];
      var before := RowData(columns[..|columns| - 1], headerMap, raw);
      var value := CellText(raw, headerMap[c.header]);
      if value == "" && !c.required then before else before[c.field := value]
  }

  /** A row that ends early reads like one with empty cells at its end. */
  lemma {:induction false} ShortRowsArePadded(columns: seq<Column>, headerMap: map<string, nat>, raw: seq<Cell>)
    requires Covers(headerMap, columns)
    ensures RowData(columns, headerMap, raw) == RowData(columns, headerMap, raw + [None])
    ensures Blank(raw) <==> Blank(raw + [None])
    decreases |columns|
  {
    if columns != [] { ShortRowsArePadded(columns[..|columns| - 1], headerMap, raw); }
    assert forall i | 0 <= i < |raw| :: (raw + [None])[i] == raw[i];
  }

  /** The first column of a field, for an error message. */
  function HeaderOf(columns: seq<Column>, field: Option<string>): Option<string> {
    if columns == [] then None
    else if Some(columns[0].field) == field then Some(columns[0].header)
    else HeaderOf(columns[1..], field)
  }

  /** The header named is that of the first column with the field, if there is one. */
  ghost predicate Names(columns: seq<Column>, field: Option<string>, header: Option<string>) {
    if header.None? then forall c | c in columns :: Some(c.field) != field
    else exists j :: 0 <= j < |columns| && Some(columns[j].field) == field && columns[j].header == header.value
                     && forall m | 0 <= m < j :: Some(columns[m].field) != field
  }

  lemma {:induction false} HeaderIsFirst(columns: seq<Column>, field: Option<string>)
    ensures Names(columns, field, HeaderOf(columns, field))
    decreases columns
  {
    if columns != [] {
      HeaderIsFirst(columns[1..], field);
      assert columns == [columns[0]] + columns[1..];
      if Some(columns[0].field) != field && HeaderOf(columns, field).Some? {
        var rest := columns[1..];
        var j :| 0 <= j < |rest| && Some(rest[j].field) == field && rest[j].header == HeaderOf(columns, field).value
                 && forall m | 0 <= m < j :: Some(rest[m].field) != field;
        assert columns[j + 1] == rest[j];
        forall m | 0 <= m < j + 1 ensures Some(columns[m].field) != field {
          if m > 0 { assert columns[m] == rest[m - 1]; }
        }
      }
    }
  }

  function ErrorsOf(columns: seq<Column>, row: nat, errors: seq<FieldError>): (r: seq<RowError>)
    ensures |r| == |errors| && forall i | 0 <= i < |r| :: r[i].row == row && r[i].code == Validation
  {
    if errors == [] then []
    else [RowError(row, HeaderOf(columns, errors[0].field), Validation)] + ErrorsOf(columns, row, errors[1..])
  }

  /** One report for each error, in order and under its header. */
  ghost predicate AreReported(columns: seq<Column>, row: nat, errors: seq<FieldError>, reports: seq<RowError>) {
    |reports| == |errors| && forall i | 0 <= i < |errors| ::
      && reports[i].row == row && reports[i].code == Validation
      && Names(columns, errors[i].field, reports[i].header)
  }

  lemma {:induction false} ErrorsAreReported(columns: seq<Column>, row: nat, errors: seq<FieldError>)
    ensures AreReported(columns, row, errors, ErrorsOf(columns, row, errors))
    decreases errors
  {
    hide Names;
    if errors != [] {
      ErrorsAreReported(columns, row, errors[1..]);
      HeaderIsFirst(columns, errors[0].field);
      forall i | 0 <= i < |errors| ensures Names(columns, errors[i].field, ErrorsOf(columns, row, errors)[i].header) {
        if i > 0 { assert errors[i] == errors[1..][i - 1]; }
      }
    }
  }

  class ExcelImporter {
    const columns: seq<Column>
    const maxRows: nat
    const limits: Limits
    const validate: Data -> Verdict

    constructor (columns: seq<Column>, maxRows: nat, limits: Limits, validate: Data -> Verdict)
      ensures this.columns == columns && this.maxRows == maxRows && this.limits == limits && this.validate == validate
    {
      this.columns, this.maxRows, this.limits, this.validate := columns, maxRows, limits, validate;
    }

    function RowParsed(headerMap: map<string, nat>, raw: seq<Cell>, row: nat): seq<ParsedRow>
      requires Covers(headerMap, columns)
    {
      if Blank(raw) then []
      else
        var data := RowData(columns, headerMap, raw);
        if validate(data).Valid? then [ParsedRow(row, data)] else []
    }

    function RowFaults(headerMap: map<string, nat>, raw: seq<Cell>, row: nat): (r: seq<RowError>)
      requires Covers(headerMap, columns)
      ensures forall i | 0 <= i < |r| :: r[i].row == row
    {
      if Blank(raw) then []
      else
        match validate(RowData(columns, headerMap, raw))
        case Valid => []
        case Invalid(first, more) => ErrorsOf(columns, row, [first] + more)
    }

    /** The rows read from the first n, numbered as in the sheet. */
    function ParsedOf(headerMap: map<string, nat>, rows: Sheet, n: nat): seq<ParsedRow>
      requires Covers(headerMap, columns) && n <= |rows|
    {
      if n == 0 then [] else ParsedOf(headerMap, rows, n - 1) + RowParsed(headerMap, rows[n - 1], n + 1)
    }

    function FaultsOf(headerMap: map<string, nat>, rows: Sheet, n: nat): seq<RowError>
      requires Covers(headerMap, columns) && n <= |rows|
    {
      if n == 0 then [] else FaultsOf(headerMap, rows, n - 1) + RowFaults(headerMap, rows[n - 1], n + 1)
    }

    method RowErrors(row: nat, verdict: Verdict) returns (r: seq<RowError>)
      requires verdict.Invalid?
      ensures r == ErrorsOf(columns, row, [verdict.first] + verdict.more)
      ensures AreReported(columns, row, [verdict.first] + verdict.more, r)
    {
      var errors := [verdict.first] + verdict.more;
      r := [];
      for i := 0 to |errors|
        invariant r + ErrorsOf(columns, row, errors[i..]) == ErrorsOf(columns, row, errors)
      {
        assert errors[i..][0] == errors[i] && errors[i..][1..] == errors[i + 1..];
        r := r + [RowError(row, HeaderOf(columns, errors[i].field), Validation)];
      }
      ErrorsAreReported(columns, row, errors);
      hide AreReported;
    }

    method ReadRow(headerMap: map<string, nat>, raw: seq<Cell>) returns (data: Data)
      requires Covers(headerMap, columns)
      ensures data == RowData(columns, headerMap, raw)
    {
      data := map[];
      for i := 0 to |columns|
        invariant data == RowData(columns[..i], headerMap, raw)
      {
        assert columns[..i + 1][..i] == columns[..i];
        var c := columns[i];
        assert c in columns;
        var value := CellText(raw, headerMap[c.header]);
        if !(value == "" && !c.required) { data := data[c.field := value]; }
      }
      assert columns[..|columns|] == columns;
    }

    /** The error for the first row over the limit. */
    function Overflow(rows: Sheet): seq<RowError> {
      if |rows| > maxRows then [RowError(maxRows + 2, None, TooManyRows)] else []
    }

    lemma NextRow(headerMap: map<string, nat>, rows: Sheet)
      requires Covers(headerMap, columns)
      ensures ParsedOf(headerMap, rows, 0) == [] && FaultsOf(headerMap, rows, 0) == []
      ensures forall i | 0 <= i < |rows| ::
                ParsedOf(headerMap, rows, i + 1) == ParsedOf(headerMap, rows, i) + RowParsed(headerMap, rows[i], i + 2)
      ensures forall i | 0 <= i < |rows| ::
                FaultsOf(headerMap, rows, i + 1) == FaultsOf(headerMap, rows, i) + RowFaults(headerMap, rows[i], i + 2)
    {
      hide RowParsed, RowFaults;
    }

    /** The rows below the header, up to the limit; blank rows are skipped but counted, and one row too
        many ends the reading with an error. A sheet that breaks off raises, unless that row came first. */
    method ParseRows(headerMap: map<string, nat>, rows: Sheet, broken: bool) returns (r: Option<ImportResult>)
      requires Covers(headerMap, columns)
      ensures r.None? <==> broken && |rows| <= maxRows
      ensures r.Some? ==>
        var n := if |rows| <= maxRows then |rows| else maxRows;
        && r.value.rows == ParsedOf(headerMap, rows, n)
        && r.value.errors == FaultsOf(headerMap, rows, n) + Overflow(rows)
    {
      hide ErrorsOf, RowData, Blank, ParsedOf, FaultsOf;
      var parsed, errors := [], [];
      NextRow(headerMap, rows);
      for i := 0 to |rows|
        invariant i <= maxRows
        invariant parsed == ParsedOf(headerMap, rows, i) && errors == FaultsOf(headerMap, rows, i)
      {
        var rowIdx := i + 2;
        if rowIdx - 1 > maxRows {
          errors := errors + [RowError(rowIdx, None, TooManyRows)];
          return Some(ImportResult(parsed, errors));
        }
        if !Blank(rows[i]) {
          var data := ReadRow(headerMap, rows[i]);
          var verdict := validate(data);
          if verdict.Invalid? {
            var es := RowErrors(rowIdx, verdict);
            errors := errors + es;
          } else {
            parsed := parsed + [ParsedRow(rowIdx, data)];
          }
        }
      }
      if broken { return None; }
      r := Some(ImportResult(parsed, errors));
    }

    function Failed(code: ErrorCode): ImportResult { ImportResult([], [RowError(1, None, code)]) }

    /** `parse`; None is an archive that is not opened at all. A file is invalid when it cannot be opened, or when it
        breaks off before the reading has ended. */
    method Parse(file: Upload) returns (r: Option<ImportResult>)
      ensures r.None? <==> file.infos.Some? && !InBounds(file.infos.value, limits)
      ensures r.Some? && file.book.None? ==> r.value == ImportResult([], [RowError(1, None, InvalidFile)])
      ensures r.Some? && file.book.Some? && file.book.value.sheet.None? ==>
        r.value == ImportResult([], [RowError(1, None, Empty)])
      ensures r.Some? && file.book.Some? && file.book.value.sheet.Some? ==>
        var sheet, broken := file.book.value.sheet.value, file.book.value.broken;
        if sheet == [] then
          r.value == ImportResult([], [RowError(1, None, if broken then InvalidFile else Empty)])
        else
          var missing := Missing(columns, HeaderMap(sheet[0]));
          if missing != [] then r.value == ImportResult([], missing)
          else if broken && |sheet| - 1 <= maxRows then r.value == ImportResult([], [RowError(1, None, InvalidFile)])
          else
            Covers(HeaderMap(sheet[0]), columns) &&
            var rows, n := sheet[1..], if |sheet| - 1 <= maxRows then |sheet| - 1 else maxRows;
            && r.value.rows == ParsedOf(HeaderMap(sheet[0]), rows, n)
            && r.value.errors == FaultsOf(HeaderMap(sheet[0]), rows, n)
                                 + if |sheet| - 1 > maxRows then [RowError(maxRows + 2, None, TooManyRows)] else []
    {
      if file.infos.Some? {
        var ok := GuardZipBomb(file.infos.value, limits);
        if !ok { return None; }
      }
      if file.book.None? { return Some(Failed(InvalidFile)); }
      var book := file.book.value;
      if book.sheet.None? { return Some(Failed(Empty)); }
      var sheet := book.sheet.value;
      if sheet == [] { return Some(Failed(if book.broken then InvalidFile else Empty)); }
      var headerMap := HeaderMap(sheet[0]);
      var missing := Missing(columns, headerMap);
      NothingMissing(columns, headerMap);
      if missing != [] { return Some(ImportResult([], missing)); }
      var parsed := ParseRows(headerMap, sheet[1..], book.broken);
      r := if parsed.None? then Some(Failed(InvalidFile)) else parsed;
    }

    predicate HasRow(parsed: seq<ParsedRow>, row: nat) { exists i :: 0 <= i < |parsed| && parsed[i].row == row }

    predicate HasFault(faults: seq<RowError>, row: nat) { exists i :: 0 <= i < |faults| && faults[i].row == row }

    /** Rows are read in order, under numbers from 2 on. */
    predicate Numbered(parsed: seq<ParsedRow>, n: nat) {
      && (forall i | 0 <= i < |parsed| :: 2 <= parsed[i].row <= n + 1)
      && (forall i, j | 0 <= i < j < |parsed| :: parsed[i].row < parsed[j].row)
    }

    predicate FaultsNumbered(faults: seq<RowError>, n: nat) {
      forall i | 0 <= i < |faults| :: 2 <= faults[i].row <= n + 1
    }

    lemma NextNumber(p: seq<ParsedRow>, f: seq<RowError>, x: seq<ParsedRow>, y: seq<RowError>, n: nat)
      requires Numbered(p, n) && FaultsNumbered(f, n)
      requires |x| <= 1 && (forall i | 0 <= i < |x| :: x[i].row == n + 2)
          && forall i | 0 <= i < |y| :: y[i].row == n + 2
      ensures Numbered(p + x, n + 1) && FaultsNumbered(f + y, n + 1)
    {
    }

    lemma {:induction false} RowsOfPrefix(headerMap: map<string, nat>, rows: Sheet, n: nat)
      requires Covers(headerMap, columns) && n <= |rows|
      ensures Numbered(ParsedOf(headerMap, rows, n), n)
      ensures FaultsNumbered(FaultsOf(headerMap, rows, n), n)
      decreases n
    {
      hide Numbered, FaultsNumbered, ErrorsOf, RowData, Blank, RowFaults;
      if n > 0 {
        RowsOfPrefix(headerMap, rows, n - 1);
        NextNumber(ParsedOf(headerMap, rows, n - 1), FaultsOf(headerMap, rows, n - 1),
                   RowParsed(headerMap, rows[n - 1], n + 1), RowFaults(headerMap, rows[n - 1], n + 1), n - 1);
      } else {
        NoNumbers();
      }
    }

    lemma NoNumbers()
      ensures Numbered([], 0) && FaultsNumbered([], 0)
    {
    }

    ghost predicate ReadOrReported(headerMap: map<string, nat>, rows: Sheet, k: nat, p: seq<ParsedRow>,
        f: seq<RowError>)
      requires Covers(headerMap, columns) && k < |rows|
    {
      if Blank(rows[k]) then !HasRow(p, k + 2) && !HasFault(f, k + 2)
      else
        var data := RowData(columns, headerMap, rows[k]);
        && (HasRow(p, k + 2) <==> validate(data).Valid?)
        && (HasFault(f, k + 2) <==> validate(data).Invalid?)
        && (forall i | 0 <= i < |p| && p[i].row == k + 2 :: p[i].data == data)
    }

    /** Results with other row numbers do not matter to row k. */
    lemma OthersAdded(headerMap: map<string, nat>, rows: Sheet, k: nat,
                      p: seq<ParsedRow>, f: seq<RowError>, p': seq<ParsedRow>, f': seq<RowError>)
      requires Covers(headerMap, columns) && k < |rows| && ReadOrReported(headerMap, rows, k, p, f)
      requires p <= p' && f <= f'
      requires forall i | |p| <= i < |p'| :: p'[i].row != k + 2
      requires forall i | |f| <= i < |f'| :: f'[i].row != k + 2
      ensures ReadOrReported(headerMap, rows, k, p', f')
    {
      hide RowData, Blank;
      if HasRow(p, k + 2) { var i :| 0 <= i < |p| && p[i].row == k + 2; assert p'[i] == p[i]; }
      if HasFault(f, k + 2) { var i :| 0 <= i < |f| && f[i].row == k + 2; assert f'[i] == f[i]; }
    }

    lemma LastRow(headerMap: map<string, nat>, rows: Sheet, n: nat)
      requires Covers(headerMap, columns) && 0 < n <= |rows|
      ensures ReadOrReported(headerMap, rows, n - 1, ParsedOf(headerMap, rows, n), FaultsOf(headerMap, rows, n))
    {
      hide RowData, ErrorsOf;
      var p, f := ParsedOf(headerMap, rows, n - 1), FaultsOf(headerMap, rows, n - 1);
      var x, y := RowParsed(headerMap, rows[n - 1], n + 1), RowFaults(headerMap, rows[n - 1], n + 1);
      RowsOfPrefix(headerMap, rows, n - 1);
      OneResult(p, f, x, y, n + 1);
    }

    /** New results under a number that has not occurred. */
    lemma OneResult(p: seq<ParsedRow>, f: seq<RowError>, x: seq<ParsedRow>, y: seq<RowError>, row: nat)
      requires forall i | 0 <= i < |p| :: p[i].row < row
      requires forall i | 0 <= i < |f| :: f[i].row < row
      requires |x| <= 1 && (forall i | 0 <= i < |x| :: x[i].row == row) && forall i | 0 <= i < |y| :: y[i].row == row
      ensures HasRow(p + x, row) <==> x != []
      ensures HasFault(f + y, row) <==> y != []
      ensures forall i | 0 <= i < |p + x| && (p + x)[i].row == row :: x != [] && (p + x)[i] == x[0]
    {
      if x != [] { assert (p + x)[|p|].row == row; }
      if y != [] { assert (f + y)[|f|].row == row; }
    }

    /** A blank row leaves nothing behind; any other row is either read, once and under its own number,
        or reported, never both. */
    lemma {:induction false} EachRowIsReadOrReported(headerMap: map<string, nat>, rows: Sheet, n: nat, k: nat)
      requires Covers(headerMap, columns) && n <= |rows| && k < n
      ensures ReadOrReported(headerMap, rows, k, ParsedOf(headerMap, rows, n), FaultsOf(headerMap, rows, n))
      decreases n
    {
      if k == n - 1 {
        LastRow(headerMap, rows, n);
      } else {
        hide RowData, ReadOrReported;
        EachRowIsReadOrReported(headerMap, rows, n - 1, k);
        OthersAdded(headerMap, rows, k, ParsedOf(headerMap, rows, n - 1), FaultsOf(headerMap, rows, n - 1),
                    ParsedOf(headerMap, rows, n), FaultsOf(headerMap, rows, n));
      }
    }
  }

  // ---------- The errors of a row ----------

  ghost predicate NotAbout(reports: seq<RowError>, row: nat) { forall i | 0 <= i < |reports| :: reports[i].row != row }

  /** From position `at` on stand the reports of the row's errors, and no other report is about the row. */
  ghost predicate AreErrorsOf(columns: seq<Column>, faults: seq<RowError>, at: nat, row: nat, errors: seq<FieldError>) {
    && at + |errors| <= |faults|
    && AreReported(columns, row, errors, faults[at..at + |errors|])
    && NotAbout(faults[..at], row) && NotAbout(faults[at + |errors|..], row)
  }

  lemma MoreErrors(columns: seq<Column>, f: seq<RowError>, at: nat, row: nat, errors: seq<FieldError>,
                   before: seq<RowError>, after: seq<RowError>)
    requires AreErrorsOf(columns, f, at, row, errors) && NotAbout(before, row) && NotAbout(after, row)
    ensures AreErrorsOf(columns, before + f + after, |before| + at, row, errors)
  {
    hide AreReported;
    var g, to, n := before + f + after, |before| + at, |errors|;
    assert g[to..to + n] == f[at..at + n];
    assert g[..to] == before + f[..at];
    assert g[to + n..] == f[at + n..] + after;
  }

  /** Every error of a row that the schema rejects is reported, in its order. */
  lemma {:induction false} EveryErrorIsReported(m: ExcelImporter, headerMap: map<string, nat>, rows: Sheet, n: nat,
                                                k: nat)
    returns (at: nat)
    requires Covers(headerMap, m.columns) && k < n <= |rows| && !Blank(rows[k])
    requires m.validate(RowData(m.columns, headerMap, rows[k])).Invalid?
    ensures var v := m.validate(RowData(m.columns, headerMap, rows[k]));
      AreErrorsOf(m.columns, m.FaultsOf(headerMap, rows, n), at, k + 2, [v.first] + v.more)
    decreases n
  {
    hide AreErrorsOf, RowData, Blank, Covers, Names, ErrorsOf, NotAbout;
    var v := m.validate(RowData(m.columns, headerMap, rows[k]));
    var f, last := m.FaultsOf(headerMap, rows, n - 1), m.RowFaults(headerMap, rows[n - 1], n + 1);
    var errors := [v.first] + v.more;
    if k == n - 1 {
      m.RowsOfPrefix(headerMap, rows, n - 1);
      BelowIsNotAbout(m, f, n - 1, k + 2);
      RowErrorsAlone(m.columns, k + 2, errors);
      MoreErrors(m.columns, last, 0, k + 2, errors, f, []);
      assert f + last + [] == f + last;
      at := |f|;
    } else {
      at := EveryErrorIsReported(m, headerMap, rows, n - 1, k);
      OtherIsNotAbout(last, n + 1, k + 2);
      MoreErrors(m.columns, f, at, k + 2, errors, [], last);
      assert [] + f + last == f + last;
    }
  }

  lemma RowErrorsAlone(columns: seq<Column>, row: nat, errors: seq<FieldError>)
    ensures AreErrorsOf(columns, ErrorsOf(columns, row, errors), 0, row, errors) && NotAbout([], row)
  {
    ErrorsAreReported(columns, row, errors);
    var r := ErrorsOf(columns, row, errors);
    assert r[0..0 + |errors|] == r && r[..0] == [] && r[0 + |errors|..] == [];
    hide AreReported, ErrorsOf;
  }

  lemma BelowIsNotAbout(m: ExcelImporter, faults: seq<RowError>, n: nat, row: nat)
    requires m.FaultsNumbered(faults, n) && row > n + 1
    ensures NotAbout(faults, row)
  {
  }

  lemma OtherIsNotAbout(faults: seq<RowError>, other: nat, row: nat)
    requires (forall i | 0 <= i < |faults| :: faults[i].row == other) && other != row
    ensures NotAbout(faults, row) && NotAbout([], row)
  {
  }

  // ---------- The header ----------

  /** Header text -> position; a later column of the same name wins. */
  function HeaderMap(header: seq<Cell>): map<string, nat> {
    if header == [] then map[]
    else
      var last := header[|header| - 1];
      var before := HeaderMap(header[..|header| - 1]);
      if last.Some? then before[Strip(last.value) := |header| - 1] else before
  }

  function Missing(columns: seq<Column>, headerMap: map<string, nat>): seq<RowError> {
    if columns == [] then []
    else (if columns[0].header in headerMap then [] else [RowError(1, Some(columns[0].header), MissingColumn)])
         + Missing(columns[1..], headerMap)
  }

  /** The missing columns are reported in the order of the columns, */
  lemma {:induction false} MissingAdds(columns: seq<Column>, more: seq<Column>, headerMap: map<string, nat>)
    ensures Missing(columns + more, headerMap) == Missing(columns, headerMap) + Missing(more, headerMap)
    decreases columns
  {
    if columns == [] {
      assert columns + more == more;
    } else {
      assert (columns + more)[1..] == columns[1..] + more;
      MissingAdds(columns[1..], more, headerMap);
    }
  }

  /** each under its header, and nothing else is reported. */
  lemma {:induction false} MissingIsReported(columns: seq<Column>, headerMap: map<string, nat>, e: RowError)
    ensures e in Missing(columns, headerMap) <==>
            && e.row == 1 && e.code == MissingColumn && e.header.Some? && e.header.value !in headerMap
            && exists j :: 0 <= j < |columns| && columns[j].header == e.header.value
    decreases columns
  {
    if columns != [] {
      var rest := columns[1..];
      MissingIsReported(rest, headerMap, e);
      if e.header.Some? {
        if j :| 0 <= j < |rest| && rest[j].header == e.header.value { assert columns[j + 1].header == e.header.value; }
        if j :| 0 < j < |columns| && columns[j].header == e.header.value {
          assert rest[j - 1].header == e.header.value;
        }
      }
    }
  }

  lemma NothingMissing(columns: seq<Column>, headerMap: map<string, nat>)
    ensures Missing(columns, headerMap) == [] <==> Covers(headerMap, columns)
  {
    if columns != [] {
      NothingMissing(columns[1..], headerMap);
      assert columns == [columns[0]] + columns[1..];
    }
  }

  /** The position found for a header is the last cell with that text. */
  lemma {:induction false} LastHeaderWins(header: seq<Cell>, h: string)
    ensures h in HeaderMap(header) <==> exists i :: 0 <= i < |header| && header[i].Some? && Strip(header[i].value) == h
    ensures h in HeaderMap(header) ==>
      var at := HeaderMap(header)[h];
      && at < |header| && header[at].Some? && Strip(header[at].value) == h
      && forall j | at < j < |header| && header[j].Some? :: Strip(header[j].value) != h
    decreases |header|
  {
    if header != [] {
      LastHeaderWins(header[..|header| - 1], h);
    }
  }

  // ---------- Export ----------

  // A record as the exporter is given it: a missing or null value is None.
  type Record = map<string, Cell>

  function Value(r: Record, field: string): Cell { if field in r then r[field] else None }

  function HeaderRow(columns: seq<Column>): seq<Cell> {
    seq(|columns|, i requires 0 <= i < |columns| => Stored(columns[i].header))
  }

  function RecordRow(columns: seq<Column>, r: Record): seq<Cell> {
    seq(|columns|, i requires 0 <= i < |columns| => Stored(ToText(Value(r, columns[i].field))))
  }

  class ExcelExporter {
    const columns: seq<Column>

    constructor (columns: seq<Column>)
      ensures this.columns == columns
    {
      this.columns := columns;
    }

    method Write(records: seq<Record>) returns (sheet: Sheet)
      ensures |sheet| == |records| + 1 && sheet[0] == HeaderRow(columns)
      ensures forall i | 0 <= i < |records| :: sheet[i + 1] == RecordRow(columns, records[i])
    {
      sheet := [HeaderRow(columns)];
      for i := 0 to |records|
        invariant |sheet| == i + 1 && sheet[0] == HeaderRow(columns)
        invariant forall j | 0 <= j < i :: sheet[j + 1] == RecordRow(columns, records[j])
      {
        sheet := sheet + [RecordRow(columns, records[i])];
      }
    }
  }

  // ---------- Out and in again ----------

  /** Headers that can be told apart in the sheet. */
  ghost predicate HeadersOk(columns: seq<Column>) {
    && (forall i | 0 <= i < |columns| :: columns[i].header != "" && IsStripped(columns[i].header))
    && (forall i, j | 0 <= i < j < |columns| :: columns[i].header != columns[j].header)
  }

  ghost predicate FieldsDistinct(columns: seq<Column>) {
    forall i, j | 0 <= i < j < |columns| :: columns[i].field != columns[j].field
  }

  /** The header row is found again, every column in its own place. */
  lemma HeadersAreFound(columns: seq<Column>, i: nat)
    requires HeadersOk(columns) && i < |columns|
    ensures columns[i].header in HeaderMap(HeaderRow(columns)) && HeaderMap(HeaderRow(columns))[columns[i].header] == i
  {
    var header, h := HeaderRow(columns), columns[i].header;
    LastHeaderWins(header, h);
    forall j | 0 <= j < |columns| ensures header[j] == Some(columns[j].header)
        && Strip(header[j].value) == columns[j].header {
      StripStrips(columns[j].header);
    }
  }

  lemma AllHeadersAreFound(columns: seq<Column>)
    requires HeadersOk(columns)
    ensures Covers(HeaderMap(HeaderRow(columns)), columns)
  {
    forall c | c in columns ensures c.header in HeaderMap(HeaderRow(columns)) {
      var i :| 0 <= i < |columns| && columns[i] == c;
      HeadersAreFound(columns, i);
    }
  }

  /** The text of a value after one trip. */
  function Tripped(value: Cell): string { if value.Some? then Trip(value.value) else "" }

  /** The data give the column this text; an empty optional one is left out. */
  predicate Reads(data: Data, c: Column, value: string) {
    if value == "" && !c.required then c.field !in data else c.field in data && data[c.field] == value
  }

  lemma {:induction false} DataOfRow(columns: seq<Column>, headerMap: map<string, nat>, raw: seq<Cell>, i: nat)
    requires FieldsDistinct(columns) && Covers(headerMap, columns) && i < |columns|
    ensures Reads(RowData(columns, headerMap, raw), columns[i], CellText(raw, headerMap[columns[i].header]))
    decreases |columns|
  {
    var init := columns[..|columns| - 1];
    FieldsOfData(init, headerMap, raw);
    if i < |init| {
      DataOfRow(init, headerMap, raw, i);
      assert init[i] == columns[i];
    } else {
      forall c | c in init ensures c.field != columns[i].field { var j :| 0 <= j < |init| && init[j] == c; }
    }
  }

  lemma {:induction false} FieldsOfData(columns: seq<Column>, headerMap: map<string, nat>, raw: seq<Cell>)
    requires Covers(headerMap, columns)
    ensures forall f | f in RowData(columns, headerMap, raw) :: exists c :: c in columns && c.field == f
    decreases |columns|
  {
    if columns != [] {
      var init, last := columns[..|columns| - 1], columns[|columns| - 1];
      FieldsOfData(init, headerMap, raw);
      assert last in columns;
      forall c | c in init ensures c in columns { }
    }
  }

  /** An exported record that is read back gives every column the text of one trip. */
  lemma ExportedRecordReadsBack(columns: seq<Column>, r: Record, i: nat)
    requires HeadersOk(columns) && FieldsDistinct(columns) && i < |columns|
    ensures Covers(HeaderMap(HeaderRow(columns)), columns)
    ensures Reads(RowData(columns, HeaderMap(HeaderRow(columns)), RecordRow(columns, r)),
                  columns[i], Tripped(Value(r, columns[i].field)))
  {
    AllHeadersAreFound(columns);
    HeadersAreFound(columns, i);
    DataOfRow(columns, HeaderMap(HeaderRow(columns)), RecordRow(columns, r), i);
    assert Cleaned("") == "";
  }

  /** The data are the record with every text one trip older, each under its own column. */
  predicate IsRecord(columns: seq<Column>, data: Data, r: Record) {
    forall i | 0 <= i < |columns| :: Reads(data, columns[i], Tripped(Value(r, columns[i].field)))
  }

  lemma RecordReadsBack(columns: seq<Column>, r: Record)
    requires HeadersOk(columns) && FieldsDistinct(columns)
    ensures Covers(HeaderMap(HeaderRow(columns)), columns)
    ensures IsRecord(columns, RowData(columns, HeaderMap(HeaderRow(columns)), RecordRow(columns, r)), r)
  {
    hide RowData, HeaderMap, HeaderRow, RecordRow, Reads, Tripped;
    AllHeadersAreFound(columns);
    forall i | 0 <= i < |columns|
      ensures Reads(RowData(columns, HeaderMap(HeaderRow(columns)), RecordRow(columns, r)), columns[i],
                    Tripped(Value(r, columns[i].field)))
    {
      ExportedRecordReadsBack(columns, r, i);
    }
  }

  /** What is read in row k + 2 of an exported sheet is record k. */
  lemma ImportedRow(m: ExcelImporter, records: seq<Record>, rows: Sheet, n: nat, j: nat)
    requires HeadersOk(m.columns) && FieldsDistinct(m.columns) && n <= |rows|
    requires |rows| == |records| && forall j | 0 <= j < |rows| :: rows[j] == RecordRow(m.columns, records[j])
    ensures Covers(HeaderMap(HeaderRow(m.columns)), m.columns)
    ensures var p := m.ParsedOf(HeaderMap(HeaderRow(m.columns)), rows, n);
      j < |p| ==> 2 <= p[j].row < n + 2 && IsRecord(m.columns, p[j].data, records[p[j].row - 2])
  {
    hide RowData, HeaderRow, RecordRow, IsRecord, HeadersOk, FieldsDistinct;
    AllHeadersAreFound(m.columns);
    var header := HeaderMap(HeaderRow(m.columns));
    var p := m.ParsedOf(header, rows, n);
    m.RowsOfPrefix(header, rows, n);
    if j < |p| {
      var k := p[j].row - 2;
      m.EachRowIsReadOrReported(header, rows, n, k);
      RecordReadsBack(m.columns, records[k]);
      assert m.HasRow(p, k + 2);
    }
  }

  lemma ImportedRows(m: ExcelImporter, records: seq<Record>, rows: Sheet, n: nat)
    requires HeadersOk(m.columns) && FieldsDistinct(m.columns) && n <= |rows|
    requires |rows| == |records| && forall j | 0 <= j < |rows| :: rows[j] == RecordRow(m.columns, records[j])
    ensures Covers(HeaderMap(HeaderRow(m.columns)), m.columns)
    ensures var p := m.ParsedOf(HeaderMap(HeaderRow(m.columns)), rows, n);
      forall j | 0 <= j < |p| :: 2 <= p[j].row < n + 2 && IsRecord(m.columns, p[j].data, records[p[j].row - 2])
  {
    hide HeaderMap, HeaderRow, RecordRow, IsRecord, HeadersOk, FieldsDistinct, Covers;
    ImportedRow(m, records, rows, n, 0);
    forall j: nat { ImportedRow(m, records, rows, n, j); }
  }

  lemma {:induction false} FaultsAreValidation(m: ExcelImporter, headerMap: map<string, nat>, rows: Sheet, n: nat)
    requires Covers(headerMap, m.columns) && n <= |rows|
    ensures forall e | e in m.FaultsOf(headerMap, rows, n) :: e.code == Validation
    decreases n
  {
    if n > 0 { FaultsAreValidation(m, headerMap, rows, n - 1); }
  }

  /** The error for the limit is the only one of its kind and concerns no row below the limit. */
  lemma AllReadOrReported(m: ExcelImporter, headerMap: map<string, nat>, rows: Sheet, n: nat)
    requires Covers(headerMap, m.columns) && n == if |rows| <= m.maxRows then |rows| else m.maxRows
    ensures var p, f := m.ParsedOf(headerMap, rows, n), m.FaultsOf(headerMap, rows, n) + m.Overflow(rows);
      && (forall k | 0 <= k < n :: m.ReadOrReported(headerMap, rows, k, p, f))
      && (RowError(m.maxRows + 2, None, TooManyRows) in f <==> |rows| > m.maxRows)
  {
    hide Covers, RowData;
    var p, f := m.ParsedOf(headerMap, rows, n), m.FaultsOf(headerMap, rows, n);
    forall k | 0 <= k < n ensures m.ReadOrReported(headerMap, rows, k, p, f + m.Overflow(rows)) {
      m.EachRowIsReadOrReported(headerMap, rows, n, k);
      m.OthersAdded(headerMap, rows, k, p, f, p, f + m.Overflow(rows));
    }
    FaultsAreValidation(m, headerMap, rows, n);
  }

  /** Export, then import of what was written. Up to the row limit every record whose row is not blank is
      either read or reported; what is read in row k + 2 is record k, its texts one trip older; and there
      is an error for the limit exactly when there are more records. */
  method ExportThenImport(e: ExcelExporter, m: ExcelImporter, records: seq<Record>, infos: seq<ZipInfo>)
    returns (sheet: Sheet, r: Option<ImportResult>)
    requires e.columns == m.columns && HeadersOk(m.columns) && FieldsDistinct(m.columns)
    ensures Covers(HeaderMap(HeaderRow(m.columns)), m.columns)
    ensures |sheet| == |records| + 1
        && forall k | 0 <= k < |records| :: sheet[k + 1] == RecordRow(m.columns, records[k])
    ensures r.Some? <==> InBounds(infos, m.limits)
    ensures r.Some? ==>
      && (forall k | 0 <= k < |records| && k < m.maxRows ::
            m.ReadOrReported(HeaderMap(HeaderRow(m.columns)), sheet[1..], k, r.value.rows, r.value.errors))
      && (forall j | 0 <= j < |r.value.rows| ::
            && 2 <= r.value.rows[j].row < |records| + 2 && r.value.rows[j].row < m.maxRows + 2
            && IsRecord(m.columns, r.value.rows[j].data, records[r.value.rows[j].row - 2]))
      && (RowError(m.maxRows + 2, None, TooManyRows) in r.value.errors <==> |records| > m.maxRows)
  {
    hide RowData, IsRecord, HeadersOk, FieldsDistinct, RecordRow, HeaderMap;
    sheet := e.Write(records);
    r := m.Parse(Upload(Some(infos), Some(Book(Some(sheet), false))));
    AllHeadersAreFound(m.columns);
    NothingMissing(m.columns, HeaderMap(sheet[0]));
    if r.Some? {
      var header, rows, n := HeaderMap(sheet[0]), sheet[1..], if |records| <= m.maxRows then |records| else m.maxRows;
      ImportedRows(m, records, rows, n);
      AllReadOrReported(m, header, rows, n);
    }
  }

  /** A record of plain texts comes back as it was. */
  lemma PlainRecordComesBack(columns: seq<Column>, r: Record)
    requires HeadersOk(columns) && FieldsDistinct(columns)
    requires forall i | 0 <= i < |columns| :: columns[i].field in r && r[columns[i].field].Some?
    requires forall i | 0 <= i < |columns| :: Plain(r[columns[i].field].value) && r[columns[i].field].value != ""
    ensures Covers(HeaderMap(HeaderRow(columns)), columns)
    ensures var data := RowData(columns, HeaderMap(HeaderRow(columns)), RecordRow(columns, r));
      forall i | 0 <= i < |columns| :: columns[i].field in data && Some(data[columns[i].field]) == r[columns[i].field]
  {
    AllHeadersAreFound(columns);
    forall i | 0 <= i < |columns|
      ensures var data := RowData(columns, HeaderMap(HeaderRow(columns)), RecordRow(columns, r));
        columns[i].field in data && Some(data[columns[i].field]) == r[columns[i].field]
    {
      ExportedRecordReadsBack(columns, r, i);
      SurvivesExactlyWhenPlain(r[columns[i].field].value);
    }
  }

  /** An exported record is taken for a blank row exactly when none of its texts has a legal character. */
  lemma ExportedRecordIsBlankExactlyWhen(columns: seq<Column>, r: Record)
    ensures Blank(RecordRow(columns, r)) <==>
      forall i | 0 <= i < |columns| ::
        var v := Value(r, columns[i].field); v.Some? ==> forall c | c in v.value :: Illegal(c)
  {
    assert Cleaned("") == "";
    forall i | 0 <= i < |columns|
      ensures RecordRow(columns, r)[i].None? <==>
              var v := Value(r, columns[i].field); v.Some? ==> forall c | c in v.value :: Illegal(c)
    {
      var v := Value(r, columns[i].field);
      if v.Some? { CleanedIsEmpty(v.value); }
    }
  }

  lemma {:induction false} CleanedIsEmpty(s: string)
    ensures Cleaned(s) == "" <==> forall c | c in s :: Illegal(c)
    decreases |s|
  {
    if s != "" {
      CleanedIsEmpty(s[1..]);
      assert s == [s[0]] + s[1..];
    }
  }
}
