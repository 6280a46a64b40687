// The semantic column map of frontend/src/core/columnMapper.js.
//
// The builder walks an already-resolved workbook snapshot (sheets with their used
// range, header block, tables and pivots, then the workbook's named ranges) and
// emits text lines. Its specification has two layers: `Entries` lists, in output
// order, the marker lines and the named descriptors the walk produces; `Run` folds
// the name-count dictionary over them, turning each descriptor's base name into
// its deduplicated name. The imperative methods further down follow the source's
// loops and are proved equal to that specification.
module ColumnMapper {
  import opened Config
  import opened Utils

  // ---------------------------------------------------------------------
  // The workbook snapshot
  // ---------------------------------------------------------------------

  /** `getUsedRangeOrNullObject()` once loaded: 0-based origin and size. */
  datatype UsedRange = UsedRange(rowIndex: nat, columnIndex: nat, rowCount: nat, columnCount: nat)

  /** A table: its name and the first row of its header range (`[]` when there is none). */
  datatype Table = Table(name: string, headerValues: seq<JsValue>)

  /** A worksheet. `headers` is the loaded `values` of the header block, row by row;
      `used` is `None` for the null object of an empty sheet. */
  datatype Sheet = Sheet(
    name: string,
    visibility: string,
    used: Option<UsedRange>,
    headers: seq<seq<JsValue>>,
    tables: seq<Table>,
    pivots: seq<string>)

  /** A workbook-level named range and the address of the range it refers to. */
  datatype NamedItem = NamedItem(name: string, address: string)

  datatype Workbook = Workbook(sheets: seq<Sheet>, names: seq<NamedItem>)

  // ---------------------------------------------------------------------
  // Header labels
  // ---------------------------------------------------------------------

  /** Cell (r, c) of the header block; a cell outside the loaded block reads as undefined. */
  function CellAt(headers: seq<seq<JsValue>>, r: nat, c: nat): JsValue {
    if r < |headers| && c < |headers[r]| then headers[r][c] else Undefined
  }

  /** The text of a header cell: "" for null, undefined and "", otherwise `String(v).trim()`. */
  function CellText(v: JsValue): (t: string)
    ensures v.Null? || v.Undefined? || v == Str("") ==> t == ""
  {
    if v.Null? || v.Undefined? || v == Str("") then "" else Trim(ToStr(v))
  }

  /** A header text neither starts nor ends with whitespace. */
  lemma CellTextShape(v: JsValue)
    ensures CellText(v) == [] || (!IsSpace(CellText(v)[0]) && !IsSpace(CellText(v)[|CellText(v)| - 1]))
  {
    TrimShape(ToStr(v));
  }

  /** `Math.min(3, rowCount)`: the number of rows read as headers. */
  function HeaderRowsOf(u: UsedRange): (hr: nat)
    ensures hr <= 3 && hr <= u.rowCount
    ensures hr == u.rowCount || hr == 3
  {
    if u.rowCount < 3 then u.rowCount else 3
  }

  /** The header texts of column `col`, top row first. */
  function HeaderTextsOf(headers: seq<seq<JsValue>>, hr: nat, col: nat): (ts: seq<string>)
    ensures |ts| == hr
  {
    seq(hr, r requires 0 <= r < hr => CellText(CellAt(headers, r, col)))
  }

  /** The bottom-most non-empty text, or "" when there is none. */
  function PrimaryOf(texts: seq<string>): string {
    if texts == [] then ""
    else if texts[|texts| - 1] != "" then texts[|texts| - 1]
    else PrimaryOf(texts[..|texts| - 1])
  }

  /** The primary label is the non-empty text with only empty texts below it. */
  lemma {:induction false} PrimaryIsBottomMost(texts: seq<string>, k: nat)
    requires k < |texts| && texts[k] != ""
    requires forall j :: k < j < |texts| ==> texts[j] == ""
    ensures PrimaryOf(texts) == texts[k]
    decreases |texts|
  {
    if k < |texts| - 1 {
      var p := texts[..|texts| - 1];
      assert forall j :: k < j < |p| ==> p[j] == texts[j];
      PrimaryIsBottomMost(p, k);
    }
  }

  /** A column has no primary label exactly when all its header texts are empty. */
  lemma {:induction false} PrimaryEmptyIff(texts: seq<string>)
    ensures PrimaryOf(texts) == "" <==> forall j :: 0 <= j < |texts| ==> texts[j] == ""
    decreases |texts|
  {
    if texts != [] {
      var p := texts[..|texts| - 1];
      PrimaryEmptyIff(p);
      assert forall j :: 0 <= j < |p| ==> p[j] == texts[j];
    }
  }

  /** A header text that can prefix the primary label. */
  predicate IsOther(t: string, primary: string) {
    t != "" && t != primary
  }

  /** The first of `rows` that is non-empty and differs from `primary`. */
  function FirstOther(rows: seq<string>, primary: string): Option<string> {
    if rows == [] then None
    else if IsOther(rows[0], primary) then Some(rows[0])
    else FirstOther(rows[1..], primary)
  }

  lemma {:induction false} FirstOtherAt(rows: seq<string>, primary: string, k: nat)
    requires k < |rows| && IsOther(rows[k], primary)
    requires forall j :: 0 <= j < k ==> !IsOther(rows[j], primary)
    ensures FirstOther(rows, primary) == Some(rows[k])
    decreases k
  {
    if k > 0 {
      assert !IsOther(rows[0], primary);
      assert forall j :: 0 <= j < k - 1 ==> rows[1..][j] == rows[j + 1];
      FirstOtherAt(rows[1..], primary, k - 1);
    }
  }

  lemma {:induction false} FirstOtherNone(rows: seq<string>, primary: string)
    ensures FirstOther(rows, primary).None? <==> forall j :: 0 <= j < |rows| ==> !IsOther(rows[j], primary)
    decreases |rows|
  {
    if rows != [] {
      FirstOtherNone(rows[1..], primary);
      assert forall j :: 1 <= j < |rows| ==> rows[j] == rows[1..][j - 1];
    }
  }

  /** The rows above the bottom header row: the ones that may prefix the label. */
  function UpperRows(texts: seq<string>): seq<string> {
    if texts == [] then [] else texts[..|texts| - 1]
  }

  /** The label: the primary, prefixed by the first upper row that is non-empty and
      differs from it, if any. */
  function CombinedOf(texts: seq<string>, primary: string): string {
    match FirstOther(UpperRows(texts), primary)
    case None => primary
    case Some(t) => t + " - " + primary
  }

  /** The label is the primary alone when no upper row qualifies, and otherwise
      `<first qualifying row> - <primary>`: at most one prefix is ever added. */
  lemma CombinedSpec(texts: seq<string>, primary: string)
    ensures (forall j :: 0 <= j < |texts| - 1 ==> !IsOther(texts[j], primary)) ==>
      CombinedOf(texts, primary) == primary
    ensures forall k ::
      (0 <= k < |texts| - 1 && IsOther(texts[k], primary) &&
       (forall j :: 0 <= j < k ==> !IsOther(texts[j], primary))) ==>
      CombinedOf(texts, primary) == texts[k] + " - " + primary
  {
    var up := UpperRows(texts);
    assert forall j :: 0 <= j < |up| ==> up[j] == texts[j];
    FirstOtherNone(up, primary);
    forall k | 0 <= k < |texts| - 1 && IsOther(texts[k], primary) &&
      (forall j :: 0 <= j < k ==> !IsOther(texts[j], primary))
      ensures CombinedOf(texts, primary) == texts[k] + " - " + primary
    {
      FirstOtherAt(up, primary, k);
    }
  }

  // ---------------------------------------------------------------------
  // Row ranges and column references
  // ---------------------------------------------------------------------

  /** 1-based first data row: the row below the header rows. */
  function StartRow(u: UsedRange): nat {
    u.rowIndex + HeaderRowsOf(u) + 1
  }

  /** 1-based last data row, capped at `MaxDataRowsPerColumn` rows from the start. */
  function LastRow(u: UsedRange): (last: nat)
    ensures last <= u.rowIndex + u.rowCount
    ensures last - StartRow(u) + 1 <= MaxDataRowsPerColumn
    ensures last >= StartRow(u) ==> last - StartRow(u) + 1 == MaxDataRowsPerColumn || last == u.rowIndex + u.rowCount
  {
    var candidate := u.rowIndex + u.rowCount;
    var cap := StartRow(u) + MaxDataRowsPerColumn - 1;
    if candidate < cap then candidate else cap
  }

  /** `lastRow >= startRow`: since up to three rows are headers, a used range has data
      rows only from four rows on. */
  function HasDataRows(u: UsedRange): (b: bool)
    ensures b <==> u.rowCount >= 4
  {
    LastRow(u) >= StartRow(u)
  }

  /** `replace(/'/g, "''")`: every single quote is doubled. */
  function EscapeQuotes(s: string): (r: string)
    ensures |r| >= |s|
  {
    if s == [] then []
    else (if s[0] == '\'' then "''" else [s[0]]) + EscapeQuotes(s[1..])
  }

  /** Reads a doubled quote back as one quote. */
  function UnescapeQuotes(s: string): string
    decreases |s|
  {
    if s == [] then []
    else if |s| >= 2 && s[0] == '\'' && s[1] == '\'' then "'" + UnescapeQuotes(s[2..])
    else [s[0]] + UnescapeQuotes(s[1..])
  }

  /** Escaping loses nothing: the sheet name can be read back from the reference. */
  lemma {:induction false} UnescapeEscape(s: string)
    ensures UnescapeQuotes(EscapeQuotes(s)) == s
  {
    if s != [] {
      var e := EscapeQuotes(s[1..]);
      UnescapeEscape(s[1..]);
      if s[0] == '\'' {
        assert EscapeQuotes(s) == "''" + e;
        assert ("''" + e)[2..] == e;
      } else {
        assert EscapeQuotes(s) == [s[0]] + e;
        assert ([s[0]] + e)[1..] == e;
      }
      assert s == [s[0]] + s[1..];
    }
  }

  /** `'<sheet>'!<L><startRow>:<L><lastRow>` for column `col` of the used range. */
  function ColumnRef(sheetName: string, u: UsedRange, col: nat): string {
    RangeRef(EscapeQuotes(sheetName), ColumnLetters(u.columnIndex + col + 1), StartRow(u), LastRow(u))
  }

  /** The A1-style reference text for one column of data rows. */
  function RangeRef(safeSheetName: string, colLetter: string, startRow: nat, lastRow: nat): string {
    "'" + safeSheetName + "'!" + colLetter + NatToString(startRow) + ":" + colLetter + NatToString(lastRow)
  }

  // ---------------------------------------------------------------------
  // What the walk emits, in order
  // ---------------------------------------------------------------------

  /** A line emitted as is, or a descriptor `<name> = <target>` whose name is the
      deduplicated form of `base`. */
  datatype Entry = Marker(text: string) | Named(base: string, target: string)

  /** `Sheet: <name>`, with ` (<visibility in lower case>)` unless the sheet is visible. */
  function SheetLine(sh: Sheet): (line: string)
    ensures "Sheet: " + sh.name <= line
    ensures line == "Sheet: " + sh.name <==> sh.visibility == "Visible"
  {
    "Sheet: " + sh.name + (if sh.visibility != "Visible" then " (" + Lower(sh.visibility) + ")" else "")
  }

  /** The descriptor of column `col`, if its header block yields a label. */
  function ColumnEntry(sh: Sheet, u: UsedRange, col: nat): seq<Entry> {
    var texts := HeaderTextsOf(sh.headers, HeaderRowsOf(u), col);
    var primary := PrimaryOf(texts);
    if primary == "" then []
    else [Named(NormalizeName(Str(CombinedOf(texts, primary))), ColumnRef(sh.name, u, col))]
  }

  /** The descriptors of columns 0 .. n-1, left to right. */
  function ColumnEntries(sh: Sheet, u: UsedRange, n: nat): seq<Entry> {
    if n == 0 then [] else ColumnEntries(sh, u, n - 1) + ColumnEntry(sh, u, n - 1)
  }

  /** The descriptor of one table header value, `<table>.<h>` normalized, if `h` is truthy. */
  function HeaderEntry(tableName: string, h: JsValue): seq<Entry> {
    if Truthy(h) then [Named(NormalizeName(Str(tableName + "." + ToStr(h))), tableName + "[" + ToStr(h) + "]")]
    else []
  }

  function HeaderEntries(tableName: string, hs: seq<JsValue>): seq<Entry> {
    if hs == [] then []
    else HeaderEntries(tableName, hs[..|hs| - 1]) + HeaderEntry(tableName, hs[|hs| - 1])
  }

  /** A `Table:` line followed by the table's header descriptors. */
  function TableEntry(t: Table): seq<Entry> {
    [Marker("Table: " + t.name)] + HeaderEntries(t.name, t.headerValues)
  }

  function TableEntries(ts: seq<Table>): seq<Entry> {
    if ts == [] then [] else TableEntries(ts[..|ts| - 1]) + TableEntry(ts[|ts| - 1])
  }

  function PivotEntries(ps: seq<string>): seq<Entry> {
    if ps == [] then [] else PivotEntries(ps[..|ps| - 1]) + [Marker("PivotSource: " + ps[|ps| - 1])]
  }

  /** A sheet with a null used range or fewer than two used rows contributes only its
      `Sheet:` line. */
  predicate Skipped(sh: Sheet) {
    sh.used.None? || sh.used.value.rowCount < 2
  }

  /** The column descriptors of a used range: none unless it has data rows. */
  function DataEntries(sh: Sheet, u: UsedRange): seq<Entry> {
    if HasDataRows(u) then ColumnEntries(sh, u, u.columnCount) else []
  }

  /** What a sheet contributes after its `Sheet:` line: nothing when it is skipped;
      otherwise its column descriptors, its tables and its pivot markers. */
  function SheetBody(sh: Sheet): seq<Entry> {
    if Skipped(sh) then []
    else DataEntries(sh, sh.used.value) + (TableEntries(sh.tables) + PivotEntries(sh.pivots))
  }

  function SheetEntry(sh: Sheet): seq<Entry> {
    [Marker(SheetLine(sh))] + SheetBody(sh)
  }

  function SheetEntries(shs: seq<Sheet>): seq<Entry> {
    if shs == [] then [] else SheetEntries(shs[..|shs| - 1]) + SheetEntry(shs[|shs| - 1])
  }

  function NameEntry(n: NamedItem): seq<Entry> {
    [Marker("NamedRange: " + n.name), Named(NormalizeName(Str(n.name)), n.address)]
  }

  function NameEntries(ns: seq<NamedItem>): seq<Entry> {
    if ns == [] then [] else NameEntries(ns[..|ns| - 1]) + NameEntry(ns[|ns| - 1])
  }

  /** Every sheet, in order, then every named range. */
  function Entries(wb: Workbook): seq<Entry> {
    SheetEntries(wb.sheets) + NameEntries(wb.names)
  }

  // ---------------------------------------------------------------------
  // The shared name-count dictionary
  // ---------------------------------------------------------------------

  /** The lines emitted so far and `globalNameCounts`. */
  datatype BuildState = BuildState(lines: seq<string>, counts: map<string, nat>)

  const Init := BuildState([], map[])

  /** A token seen before gets its incremented count as a `__<count>` suffix; a new
      token is emitted as is and counted once. */
  function Dedup(counts: map<string, nat>, base: string): (string, map<string, nat>) {
    var k := if base in counts && counts[base] != 0 then counts[base] + 1 else 1;
    (Label(base, k), counts[base := k])
  }

  function Step(st: BuildState, e: Entry): BuildState {
    match e
    case Marker(t) => BuildState(st.lines + [t], st.counts)
    case Named(base, target) =>
      var (name, counts) := Dedup(st.counts, base);
      BuildState(st.lines + [name + " = " + target], counts)
  }

  /** The state after emitting `es`, one entry at a time. */
  function Run(st: BuildState, es: seq<Entry>): BuildState {
    if es == [] then st else Step(Run(st, es[..|es| - 1]), es[|es| - 1])
  }

  /** Emitting two runs of entries is emitting their concatenation. */
  lemma {:induction false} RunAppend(st: BuildState, a: seq<Entry>, b: seq<Entry>)
    ensures Run(st, a + b) == Run(Run(st, a), b)
    decreases |b|
  {
    if b == [] {
      assert a + b == a;
    } else {
      var b' := b[..|b| - 1];
      RunAppend(st, a, b');
      assert (a + b)[..|a + b| - 1] == a + b';
    }
  }

  /** `lines.join("\n")`. */
  function JoinLines(lines: seq<string>): (r: string)
    ensures lines != [] ==> lines[0] <= r
    ensures |lines| <= 1 ==> r == (if lines == [] then "" else lines[0])
  {
    if |lines| <= 1 then (if lines == [] then "" else lines[0])
    else JoinLines(lines[..|lines| - 1]) + "\n" + lines[|lines| - 1]
  }

  /** The column map the builder returns for a workbook. */
  function ColumnMapOf(wb: Workbook): string {
    JoinLines(Run(Init, Entries(wb)).lines)
  }

  // ---------------------------------------------------------------------
  // The dedup counter, stated without the dictionary
  // ---------------------------------------------------------------------

  /** How many descriptors in `es` have base `b`. */
  function NamedCount(es: seq<Entry>, b: string): nat {
    if es == [] then 0
    else NamedCount(es[..|es| - 1], b) + (if es[|es| - 1].Named? && es[|es| - 1].base == b then 1 else 0)
  }

  /** The name of the k-th occurrence of `b`: the token itself the first time, then `b__k`. */
  function Label(b: string, k: nat): string {
    if k <= 1 then b else b + "__" + NatToString(k)
  }

  /** Line i of the output, read off the entries alone. */
  function RenderAt(es: seq<Entry>, i: nat): string
    requires i < |es|
  {
    match es[i]
    case Marker(t) => t
    case Named(b, target) => Label(b, NamedCount(es[..i + 1], b)) + " = " + target
  }

  /** The counter property: line i of the build is entry i, a descriptor's name being its
      base at the first occurrence and `<base>__k` at the k-th; the dictionary holds, for
      every base seen, the number of its occurrences so far. */
  lemma {:induction false} RunIsRender(es: seq<Entry>)
    ensures |Run(Init, es).lines| == |es|
    ensures forall i :: 0 <= i < |es| ==> Run(Init, es).lines[i] == RenderAt(es, i)
    ensures forall b :: b in Run(Init, es).counts <==> NamedCount(es, b) > 0
    ensures forall b :: b in Run(Init, es).counts ==> Run(Init, es).counts[b] == NamedCount(es, b)
  {
    if es != [] {
      var p := es[..|es| - 1];
      var e := es[|es| - 1];
      RunIsRender(p);
      var st := Run(Init, p);
      assert Run(Init, es) == Step(st, e);
      forall i | 0 <= i < |p|
        ensures RenderAt(p, i) == RenderAt(es, i)
      {
        assert p[..i + 1] == es[..i + 1];
      }
      assert es[..|es|] == es;
      match e {
        case Marker(t) =>
          assert Run(Init, es).lines == st.lines + [t];
        case Named(b, target) =>
          var k := NamedCount(es, b);
          assert k == NamedCount(p, b) + 1;
          assert RenderAt(es, |p|) == Label(b, k) + " = " + target;
          assert Dedup(st.counts, b) == (Label(b, k), st.counts[b := k]);
          assert Run(Init, es).lines == st.lines + [Label(b, k) + " = " + target];
      }
    }
  }

  /** The counter does not make names unique: a raw header that normalizes to `x__2`
      yields the same name as the second `x`. */
  lemma DedupCollision(b: string, t1: string, t2: string, t3: string)
    ensures Run(Init, [Named(b, t1), Named(b, t2), Named(b + "__2", t3)]).lines ==
      [b + " = " + t1, b + "__2 = " + t2, b + "__2 = " + t3]
  {
    var b2 := b + "__2";
    assert b != b2 by {
      assert |b2| == |b| + 3;
    }
    var e1, e2, e3 := Named(b, t1), Named(b, t2), Named(b2, t3);
    var s1 := Step(Init, e1);
    assert Run(Init, [e1]) == s1 by {
      assert [e1][..0] == [];
    }
    assert s1 == BuildState([b + " = " + t1], map[b := 1]);
    var s2 := Step(s1, e2);
    assert Run(Init, [e1, e2]) == s2 by {
      assert [e1, e2][..1] == [e1];
    }
    assert s2 == BuildState([b + " = " + t1, Label(b, 2) + " = " + t2], map[b := 2]);
    var s3 := Step(s2, e3);
    assert Run(Init, [e1, e2, e3]) == s3 by {
      assert [e1, e2, e3][..2] == [e1, e2];
    }
    assert b2 !in s2.counts;
    assert s3.lines == s2.lines + [b2 + " = " + t3];
    assert NatToString(2) == "2";
    assert b + "__" + "2" == b2;
    ConcatAssoc(b, "__2", " = ");
    assert b2 + " = " == b + "__2 = ";
    assert Label(b, 2) + " = " + t2 == b + "__2 = " + t2;
    assert b2 + " = " + t3 == b + "__2 = " + t3;
    assert s3.lines == [b + " = " + t1, b + "__2 = " + t2, b + "__2 = " + t3];
  }

  // ---------------------------------------------------------------------
  // Facts about the whole map
  // ---------------------------------------------------------------------

  /** Run one more entry. */
  lemma RunSnoc(st: BuildState, es: seq<Entry>, e: Entry)
    ensures Run(st, es + [e]) == Step(Run(st, es), e)
  {
    assert (es + [e])[..|es|] == es;
  }

  /** When no header text starts with whitespace, neither does the primary label. */
  lemma {:induction false} PrimaryStartsWithNonSpace(texts: seq<string>)
    requires forall j :: 0 <= j < |texts| ==> texts[j] == [] || !IsSpace(texts[j][0])
    ensures PrimaryOf(texts) == [] || !IsSpace(PrimaryOf(texts)[0])
    decreases |texts|
  {
    if texts != [] && texts[|texts| - 1] == "" {
      var p := texts[..|texts| - 1];
      assert forall j :: 0 <= j < |p| ==> p[j] == texts[j];
      PrimaryStartsWithNonSpace(p);
    }
  }

  /** A label built on a primary that starts with a non-space is not blank. */
  lemma CombinedNotBlank(texts: seq<string>, primary: string)
    requires primary != [] && !IsSpace(primary[0])
    ensures !AllSpace(CombinedOf(texts, primary))
  {
    var combined := CombinedOf(texts, primary);
    match FirstOther(UpperRows(texts), primary)
    case None =>
      assert combined[0] == primary[0];
    case Some(t) =>
      assert combined == t + " - " + primary;
      assert combined[|t| + 3] == primary[0];
  }

  /** Every entry is a descriptor with a non-empty name. */
  predicate NamesNonEmpty(es: seq<Entry>) {
    forall e :: e in es ==> e.Named? && e.base != ""
  }

  /** A column's descriptor, when there is one, has a non-empty name. */
  lemma ColumnNameNonEmpty(sh: Sheet, u: UsedRange, col: nat)
    ensures NamesNonEmpty(ColumnEntry(sh, u, col))
  {
    var texts := HeaderTextsOf(sh.headers, HeaderRowsOf(u), col);
    forall j | 0 <= j < |texts|
      ensures texts[j] == [] || !IsSpace(texts[j][0])
    {
      CellTextShape(CellAt(sh.headers, j, col));
    }
    PrimaryStartsWithNonSpace(texts);
    var primary := PrimaryOf(texts);
    if primary != "" {
      CombinedNotBlank(texts, primary);
      NormalizeNonEmpty(CombinedOf(texts, primary));
      assert ColumnEntry(sh, u, col) == [Named(NormalizeName(Str(CombinedOf(texts, primary))), ColumnRef(sh.name, u, col))];
    }
  }

  /** Every column descriptor has a non-empty name: its label starts with a non-space. */
  lemma {:induction false} ColumnNamesNonEmpty(sh: Sheet, u: UsedRange, n: nat)
    ensures NamesNonEmpty(ColumnEntries(sh, u, n))
  {
    if n > 0 {
      var m: nat := n - 1;
      var earlier, last := ColumnEntries(sh, u, m), ColumnEntry(sh, u, m);
      assert NamesNonEmpty(earlier) by {
        ColumnNamesNonEmpty(sh, u, m);
      }
      assert NamesNonEmpty(last) by {
        ColumnNameNonEmpty(sh, u, m);
      }
      assert ColumnEntries(sh, u, n) == earlier + last;
    }
  }

  /** The `Sheet:` line of the first sheet opens every non-empty list of sheets. */
  lemma {:induction false} SheetEntriesFirst(shs: seq<Sheet>)
    requires shs != []
    ensures SheetEntries(shs) != [] && SheetEntries(shs)[0] == Marker(SheetLine(shs[0]))
    decreases |shs|
  {
    if |shs| > 1 {
      SheetEntriesFirst(shs[..|shs| - 1]);
    }
  }

  lemma {:induction false} NameEntriesFirst(ns: seq<NamedItem>)
    requires ns != []
    ensures NameEntries(ns) != [] && NameEntries(ns)[0] == Marker("NamedRange: " + ns[0].name)
    decreases |ns|
  {
    if |ns| > 1 {
      NameEntriesFirst(ns[..|ns| - 1]);
    }
  }

  /** A workbook with a sheet or a named range yields a non-empty map, headed by the
      first sheet's line (or, without sheets, the first named range's line). */
  lemma ColumnMapStart(wb: Workbook)
    requires wb.sheets != [] || wb.names != []
    ensures ColumnMapOf(wb) != ""
    ensures wb.sheets != [] ==> SheetLine(wb.sheets[0]) <= ColumnMapOf(wb)
    ensures wb.sheets == [] ==> "NamedRange: " + wb.names[0].name <= ColumnMapOf(wb)
  {
    var es := Entries(wb);
    if wb.sheets != [] {
      SheetEntriesFirst(wb.sheets);
      assert es[0] == Marker(SheetLine(wb.sheets[0]));
    } else {
      NameEntriesFirst(wb.names);
      assert es == NameEntries(wb.names);
    }
    RunIsRender(es);
  }

  /** A sheet without a used range, or with fewer than two used rows, contributes its
      `Sheet:` line and nothing else: no columns, tables or pivot markers, and no count. */
  lemma SkippedSheetOnlyLine(st: BuildState, sh: Sheet)
    requires sh.used.None? || sh.used.value.rowCount < 2
    ensures Run(st, SheetEntry(sh)) == BuildState(st.lines + [SheetLine(sh)], st.counts)
  {
    assert SheetEntry(sh) == [Marker(SheetLine(sh))];
    RunSnoc(st, [], Marker(SheetLine(sh)));
    assert [] + [Marker(SheetLine(sh))] == [Marker(SheetLine(sh))];
  }

  /** Escaping leaves a name without quotes alone. */
  lemma {:induction false} EscapeNoQuotes(s: string)
    requires '\'' !in s
    ensures EscapeQuotes(s) == s
  {
    if s != [] {
      assert s[0] != '\'';
      EscapeNoQuotes(s[1..]);
      assert s == [s[0]] + s[1..];
    }
  }

  /** A five-row range starting at row 1 has three header rows, so its first column's
      data range is A4:A5. */
  lemma FiveRowsExample(name: string, columnCount: nat)
    requires '\'' !in name
    ensures ColumnRef(name, UsedRange(0, 0, 5, columnCount), 0) == "'" + name + "'!A4:A5"
  {
    var u := UsedRange(0, 0, 5, columnCount);
    assert StartRow(u) == 4 && LastRow(u) == 5;
    ColumnLetterExamples();
    EscapeNoQuotes(name);
    assert NatToString(4) == "4" && NatToString(5) == "5";
  }

  // ---------------------------------------------------------------------
  // The builder, as the source runs it
  // ---------------------------------------------------------------------

  /** Looks `base` up in the name-count dictionary, suffixes it when it was seen before,
      and pushes `<name> = <target>`. */
  method PushDescriptor(lines: seq<string>, counts: map<string, nat>, base: string, target: string)
    returns (lines': seq<string>, counts': map<string, nat>)
    ensures BuildState(lines', counts') == Step(BuildState(lines, counts), Named(base, target))
  {
    var name := base;
    counts' := counts;
    if base in counts' && counts'[base] != 0 {
      counts' := counts'[base := counts'[base] + 1];
      name := base + "__" + NatToString(counts'[base]);
    } else {
      counts' := counts'[base := 1];
    }
    lines' := lines + [name + " = " + target];
  }

  /** Fills `headerTexts` for column `col` from the first `headerRows` rows. */
  method HeaderTexts(headers: seq<seq<JsValue>>, headerRows: nat, col: nat) returns (headerTexts: seq<string>)
    ensures headerTexts == HeaderTextsOf(headers, headerRows, col)
  {
    var texts := new string[headerRows];
    for r := 0 to headerRows
      invariant forall j :: 0 <= j < r ==> texts[j] == CellText(CellAt(headers, j, col))
    {
      var v := CellAt(headers, r, col);
      texts[r] := if v != Null && v != Str("") && v != Undefined then Trim(ToStr(v)) else "";
    }
    headerTexts := texts[..];
  }

  /** Scans the header texts bottom-up for the first non-empty one. */
  method PrimaryLabel(headerTexts: seq<string>) returns (primary: string)
    ensures primary == PrimaryOf(headerTexts)
  {
    primary := "";
    var r: int := |headerTexts| - 1;
    while r >= 0
      invariant -1 <= r < |headerTexts|
      invariant forall j :: r < j < |headerTexts| ==> headerTexts[j] == ""
      invariant primary == ""
      decreases r + 1
    {
      if headerTexts[r] != "" {
        primary := headerTexts[r];
        PrimaryIsBottomMost(headerTexts, r);
        break;
      }
      r := r - 1;
    }
    if primary == "" {
      PrimaryEmptyIff(headerTexts);
    }
  }

  /** Scans the upper header rows top-down for one prefix to put before the primary. */
  method CombinedLabel(headerTexts: seq<string>, primary: string) returns (combined: string)
    ensures combined == CombinedOf(headerTexts, primary)
  {
    combined := primary;
    ghost var up := UpperRows(headerTexts);
    assert forall j :: 0 <= j < |up| ==> up[j] == headerTexts[j];
    var r := 0;
    while r < |headerTexts| - 1
      invariant 0 <= r <= |up|
      invariant forall j :: 0 <= j < r ==> !IsOther(headerTexts[j], primary)
      invariant combined == primary
    {
      if headerTexts[r] != "" && headerTexts[r] != primary {
        combined := headerTexts[r] + " - " + combined;
        FirstOtherAt(up, primary, r);
        return;
      }
      r := r + 1;
    }
    FirstOtherNone(up, primary);
  }

  /** One pass of the column loop: the descriptor of column `col`, if it has a label. */
  method EmitColumn(sh: Sheet, u: UsedRange, headerRows: nat, startRow: nat, lastRow: nat, col: nat,
                    lines: seq<string>, counts: map<string, nat>)
    returns (lines': seq<string>, counts': map<string, nat>)
    requires headerRows == HeaderRowsOf(u) && startRow == StartRow(u) && lastRow == LastRow(u)
    ensures BuildState(lines', counts') == Run(BuildState(lines, counts), ColumnEntry(sh, u, col))
  {
    var colLetter := ColumnIndexToLetter(u.columnIndex + col);
    var safeSheetName := EscapeQuotes(sh.name);
    var target := RangeRef(safeSheetName, colLetter, startRow, lastRow);
    assert target == ColumnRef(sh.name, u, col);
    var headerTexts := HeaderTexts(sh.headers, headerRows, col);
    var primary := PrimaryLabel(headerTexts);
    if primary == "" {
      lines', counts' := lines, counts;
      assert ColumnEntry(sh, u, col) == [];
      return;
    }
    var combined := CombinedLabel(headerTexts, primary);
    var normalized := NormalizeName(Str(combined));
    assert ColumnEntry(sh, u, col) == [Named(normalized, target)];
    RunSnoc(BuildState(lines, counts), [], Named(normalized, target));
    assert [] + [Named(normalized, target)] == [Named(normalized, target)];
    lines', counts' := PushDescriptor(lines, counts, normalized, target);
  }

  /** The column loop: one descriptor per column that has a label, left to right. */
  method EmitColumns(sh: Sheet, u: UsedRange, headerRows: nat, startRow: nat, lastRow: nat,
                     lines: seq<string>, counts: map<string, nat>)
    returns (lines': seq<string>, counts': map<string, nat>)
    requires headerRows == HeaderRowsOf(u) && startRow == StartRow(u) && lastRow == LastRow(u)
    ensures BuildState(lines', counts') == Run(BuildState(lines, counts), ColumnEntries(sh, u, u.columnCount))
  {
    lines', counts' := lines, counts;
    for col := 0 to u.columnCount
      invariant BuildState(lines', counts') == Run(BuildState(lines, counts), ColumnEntries(sh, u, col))
    {
      RunAppend(BuildState(lines, counts), ColumnEntries(sh, u, col), ColumnEntry(sh, u, col));
      lines', counts' := EmitColumn(sh, u, headerRows, startRow, lastRow, col, lines', counts');
    }
  }

  /** One header value of a table: a descriptor when the value is truthy. */
  method EmitTableHeader(tableName: string, h: JsValue, lines: seq<string>, counts: map<string, nat>)
    returns (lines': seq<string>, counts': map<string, nat>)
    ensures BuildState(lines', counts') == Run(BuildState(lines, counts), HeaderEntry(tableName, h))
  {
    if !Truthy(h) {
      return lines, counts;
    }
    var norm := NormalizeName(Str(tableName + "." + ToStr(h)));
    var structuredRef := tableName + "[" + ToStr(h) + "]";
    RunSnoc(BuildState(lines, counts), [], Named(norm, structuredRef));
    assert [] + [Named(norm, structuredRef)] == HeaderEntry(tableName, h);
    lines', counts' := PushDescriptor(lines, counts, norm, structuredRef);
  }

  /** One table's header loop. */
  method EmitTableHeaders(t: Table, lines: seq<string>, counts: map<string, nat>)
    returns (lines': seq<string>, counts': map<string, nat>)
    ensures BuildState(lines', counts') == Run(BuildState(lines, counts), HeaderEntries(t.name, t.headerValues))
  {
    lines', counts' := lines, counts;
    var headerVals := t.headerValues;
    for i := 0 to |headerVals|
      invariant BuildState(lines', counts') == Run(BuildState(lines, counts), HeaderEntries(t.name, headerVals[..i]))
    {
      lines', counts' := EmitTableHeader(t.name, headerVals[i], lines', counts');
      assert BuildState(lines', counts') == Run(BuildState(lines, counts), HeaderEntries(t.name, headerVals[..i + 1])) by {
        assert headerVals[..i + 1][..i] == headerVals[..i];
        RunAppend(BuildState(lines, counts), HeaderEntries(t.name, headerVals[..i]), HeaderEntry(t.name, headerVals[i]));
      }
    }
    assert headerVals[..|headerVals|] == headerVals;
  }

  /** One table: its `Table:` line, then its header descriptors. */
  method EmitTable(t: Table, lines: seq<string>, counts: map<string, nat>)
    returns (lines': seq<string>, counts': map<string, nat>)
    ensures BuildState(lines', counts') == Run(BuildState(lines, counts), TableEntry(t))
  {
    var st := BuildState(lines, counts);
    lines' := lines + ["Table: " + t.name];
    RunSnoc(st, [], Marker("Table: " + t.name));
    assert [] + [Marker("Table: " + t.name)] == [Marker("Table: " + t.name)];
    lines', counts' := EmitTableHeaders(t, lines', counts);
    RunAppend(st, [Marker("Table: " + t.name)], HeaderEntries(t.name, t.headerValues));
  }

  /** The table loop. */
  method EmitTables(tables: seq<Table>, lines: seq<string>, counts: map<string, nat>)
    returns (lines': seq<string>, counts': map<string, nat>)
    ensures BuildState(lines', counts') == Run(BuildState(lines, counts), TableEntries(tables))
  {
    lines', counts' := lines, counts;
    for i := 0 to |tables|
      invariant BuildState(lines', counts') == Run(BuildState(lines, counts), TableEntries(tables[..i]))
    {
      lines', counts' := EmitTable(tables[i], lines', counts');
      assert BuildState(lines', counts') == Run(BuildState(lines, counts), TableEntries(tables[..i + 1])) by {
        assert tables[..i + 1][..i] == tables[..i];
        RunAppend(BuildState(lines, counts), TableEntries(tables[..i]), TableEntry(tables[i]));
      }
    }
    assert tables[..|tables|] == tables;
  }

  /** The pivot loop: one `PivotSource:` line per pivot table. */
  method EmitPivots(pivots: seq<string>, lines: seq<string>, counts: map<string, nat>)
    returns (lines': seq<string>)
    ensures BuildState(lines', counts) == Run(BuildState(lines, counts), PivotEntries(pivots))
  {
    lines' := lines;
    for i := 0 to |pivots|
      invariant BuildState(lines', counts) == Run(BuildState(lines, counts), PivotEntries(pivots[..i]))
    {
      assert pivots[..i + 1][..i] == pivots[..i];
      RunSnoc(BuildState(lines, counts), PivotEntries(pivots[..i]), Marker("PivotSource: " + pivots[i]));
      lines' := lines' + ["PivotSource: " + pivots[i]];
    }
    assert pivots[..|pivots|] == pivots;
  }

  /** The part of the sheet loop after the `Sheet:` line, for a sheet that is not skipped. */
  method EmitSheetBody(sheet: Sheet, used: UsedRange, lines: seq<string>, counts: map<string, nat>)
    returns (lines': seq<string>, counts': map<string, nat>)
    requires sheet.used == Some(used) && used.rowCount >= 2
    ensures BuildState(lines', counts') == Run(BuildState(lines, counts), SheetBody(sheet))
  {
    var st := BuildState(lines, counts);
    var headerRows := if 3 < used.rowCount then 3 else used.rowCount;
    var dataStartRowIndex := used.rowIndex + headerRows;
    var dataLastRowIndex := used.rowIndex + used.rowCount - 1;
    var startRow := dataStartRowIndex + 1;
    var maxLastRow := startRow + MaxDataRowsPerColumn - 1;
    var lastRowCandidate := dataLastRowIndex + 1;
    var lastRow := if lastRowCandidate < maxLastRow then lastRowCandidate else maxLastRow;
    lines', counts' := lines, counts;
    if lastRow >= startRow {
      lines', counts' := EmitColumns(sheet, used, headerRows, startRow, lastRow, lines', counts');
    }
    ghost var cols := DataEntries(sheet, used);
    assert BuildState(lines', counts') == Run(st, cols);
    ghost var mid := BuildState(lines', counts');
    lines', counts' := EmitTables(sheet.tables, lines', counts');
    ghost var mid2 := BuildState(lines', counts');
    lines' := EmitPivots(sheet.pivots, lines', counts');
    RunAppend(mid, TableEntries(sheet.tables), PivotEntries(sheet.pivots));
    RunAppend(st, cols, TableEntries(sheet.tables) + PivotEntries(sheet.pivots));
  }

  /** One pass of the sheet loop. */
  method EmitSheet(sheet: Sheet, lines: seq<string>, counts: map<string, nat>)
    returns (lines': seq<string>, counts': map<string, nat>)
    ensures BuildState(lines', counts') == Run(BuildState(lines, counts), SheetEntry(sheet))
  {
    var st := BuildState(lines, counts);
    var vis := sheet.visibility;
    var visText := if vis != "Visible" then " (" + Lower(vis) + ")" else "";
    lines', counts' := lines + ["Sheet: " + sheet.name + visText], counts;
    RunSnoc(st, [], Marker(SheetLine(sheet)));
    assert [] + [Marker(SheetLine(sheet))] == [Marker(SheetLine(sheet))];
    ghost var afterLine := BuildState(lines', counts');
    assert afterLine == Run(st, [Marker(SheetLine(sheet))]);
    RunAppend(st, [Marker(SheetLine(sheet))], SheetBody(sheet));
    if sheet.used.None? || sheet.used.value.rowCount < 2 {
      assert SheetBody(sheet) == [];
      return;
    }
    lines', counts' := EmitSheetBody(sheet, sheet.used.value, lines', counts');
  }

  /** One named range: its `NamedRange:` line, then its descriptor. */
  method EmitNamedRange(n: NamedItem, lines: seq<string>, counts: map<string, nat>)
    returns (lines': seq<string>, counts': map<string, nat>)
    ensures BuildState(lines', counts') == Run(BuildState(lines, counts), NameEntry(n))
  {
    var st := BuildState(lines, counts);
    lines' := lines + ["NamedRange: " + n.name];
    RunSnoc(st, [], Marker("NamedRange: " + n.name));
    assert [] + [Marker("NamedRange: " + n.name)] == [Marker("NamedRange: " + n.name)];
    var norm := NormalizeName(Str(n.name));
    RunSnoc(st, [Marker("NamedRange: " + n.name)], Named(norm, n.address));
    assert [Marker("NamedRange: " + n.name)] + [Named(norm, n.address)] == NameEntry(n);
    lines', counts' := PushDescriptor(lines', counts, norm, n.address);
  }

  /** The named-range loop. */
  method EmitNamedRanges(names: seq<NamedItem>, lines: seq<string>, counts: map<string, nat>)
    returns (lines': seq<string>, counts': map<string, nat>)
    ensures BuildState(lines', counts') == Run(BuildState(lines, counts), NameEntries(names))
  {
    lines', counts' := lines, counts;
    for i := 0 to |names|
      invariant BuildState(lines', counts') == Run(BuildState(lines, counts), NameEntries(names[..i]))
    {
      lines', counts' := EmitNamedRange(names[i], lines', counts');
      assert BuildState(lines', counts') == Run(BuildState(lines, counts), NameEntries(names[..i + 1])) by {
        assert names[..i + 1][..i] == names[..i];
        RunAppend(BuildState(lines, counts), NameEntries(names[..i]), NameEntry(names[i]));
      }
    }
    assert names[..|names|] == names;
  }

  /** The sheet loop. */
  method EmitSheets(sheets: seq<Sheet>, lines: seq<string>, counts: map<string, nat>)
    returns (lines': seq<string>, counts': map<string, nat>)
    ensures BuildState(lines', counts') == Run(BuildState(lines, counts), SheetEntries(sheets))
  {
    lines', counts' := lines, counts;
    for i := 0 to |sheets|
      invariant BuildState(lines', counts') == Run(BuildState(lines, counts), SheetEntries(sheets[..i]))
    {
      lines', counts' := EmitSheet(sheets[i], lines', counts');
      assert BuildState(lines', counts') == Run(BuildState(lines, counts), SheetEntries(sheets[..i + 1])) by {
        assert sheets[..i + 1][..i] == sheets[..i];
        RunAppend(BuildState(lines, counts), SheetEntries(sheets[..i]), SheetEntry(sheets[i]));
      }
    }
    assert sheets[..|sheets|] == sheets;
  }

  /** `buildColumnMapInternal`: the sheet loop, then the named ranges, then the join. */
  method BuildColumnMapInternal(wb: Workbook) returns (columnMap: string)
    ensures columnMap == ColumnMapOf(wb)
  {
    var lines: seq<string> := [];
    var globalNameCounts: map<string, nat> := map[];
    lines, globalNameCounts := EmitSheets(wb.sheets, lines, globalNameCounts);
    RunAppend(Init, SheetEntries(wb.sheets), NameEntries(wb.names));
    lines, globalNameCounts := EmitNamedRanges(wb.names, lines, globalNameCounts);
    assert BuildState(lines, globalNameCounts) == Run(Init, Entries(wb));
    columnMap := JoinLines(lines);
  }

  // ---------------------------------------------------------------------
  // The cache controller
  // ---------------------------------------------------------------------

  /** What the controller emits on the event bus. */
  datatype Event =
    | ColumnMapUpdated(columnMap: string)     // `columnMap:updated` with the new map
    | Toast(message: string, kind: string)    // `ui:toast`

  const RefreshFailedToast := Toast("\U{26A0}\U{FE0F} Could not refresh column map", "error")

  /** `columnMapCache`, `lastColumnMapBuild` and `refreshInProgress`. */
  datatype CacheState = CacheState(columnMapCache: string, lastColumnMapBuild: int, refreshInProgress: bool)

  /** The state `workbook:changed` leaves behind. */
  function Invalidated(s: CacheState): CacheState {
    s.(columnMapCache := "", lastColumnMapBuild := 0)
  }

  /** Whether a call at time `now` goes on to build: not while another refresh is in
      progress, and not when, unforced, a non-empty cache is younger than the TTL. */
  predicate Builds(s: CacheState, force: bool, now: int) {
    !s.refreshInProgress &&
    (force || s.columnMapCache == "" || now - s.lastColumnMapBuild >= ColumnMapTtlMs)
  }

  /** What the build's outcome does to the state: a map is stored with the second clock
      reading `finishedAt`; a failure keeps the old map and timestamp. */
  function Finish(s: CacheState, built: Option<string>, finishedAt: int): (CacheState, seq<Event>) {
    match built
    case Some(m) => (CacheState(m, finishedAt, false), [ColumnMapUpdated(m)])
    case None => (s.(refreshInProgress := false), [RefreshFailedToast])
  }

  /** One whole call of `autoRefreshColumnMap(force)`, as a function of the state before it.
      `built` is what the builder yields (`None` when it throws). */
  function Refresh(s: CacheState, force: bool, now: int, built: Option<string>, finishedAt: int)
    : (r: (CacheState, seq<Event>))
    ensures s.refreshInProgress ==> r == (s, [])
    ensures (!s.refreshInProgress && !force && s.columnMapCache != "" &&
             now - s.lastColumnMapBuild < ColumnMapTtlMs) ==> r == (s, [])
    ensures Builds(s, force, now) && built.Some? ==>
      r.0 == CacheState(built.value, finishedAt, false) && r.1 == [ColumnMapUpdated(built.value)]
    ensures Builds(s, force, now) && built.None? ==> r.0 == s && r.1 == [RefreshFailedToast]
    ensures !s.refreshInProgress ==> !r.0.refreshInProgress
  {
    if Builds(s, force, now) then Finish(s.(refreshInProgress := true), built, finishedAt) else (s, [])
  }

  /** What the builder yields for a snapshot; `None` stands for a host that throws. */
  function BuiltMap(workbook: Option<Workbook>): Option<string> {
    match workbook
    case Some(wb) => Some(ColumnMapOf(wb))
    case None => None
  }

  /** After a successful build of a non-empty map, an unforced call within the TTL of
      the build's timestamp does not build again. */
  lemma RefreshWithinTtlIsCached(s: CacheState, force: bool, now: int, m: string, finishedAt: int,
                                 later: int, built: Option<string>, laterFinish: int)
    requires Builds(s, force, now) && m != ""
    requires later - finishedAt < ColumnMapTtlMs
    ensures var s1 := Refresh(s, force, now, Some(m), finishedAt).0;
      Refresh(s1, false, later, built, laterFinish) == (s1, [])
  {
  }

  /** An empty map is never served from the cache: the next unforced call builds again. */
  lemma EmptyMapIsNotCached(s: CacheState, force: bool, now: int, finishedAt: int, later: int)
    requires Builds(s, force, now)
    ensures Builds(Refresh(s, force, now, Some(""), finishedAt).0, false, later)
  {
  }

  /** After `workbook:changed`, the next unforced call rebuilds whatever the clock says. */
  lemma InvalidatedRebuilds(s: CacheState, now: int)
    requires !s.refreshInProgress
    ensures Builds(Invalidated(s), false, now)
  {
  }

  /** A workbook without sheets and names yields the empty map. */
  lemma EmptyWorkbookMap()
    ensures ColumnMapOf(Workbook([], [])) == ""
  {
    assert Entries(Workbook([], [])) == [];
  }

  /** The module state of columnMapper.js and the operations on it. */
  class ColumnMapController {
    var columnMapCache: string
    var lastColumnMapBuild: int
    var refreshInProgress: bool

    function State(): CacheState
      reads this
    {
      CacheState(columnMapCache, lastColumnMapBuild, refreshInProgress)
    }

    /** The module's initial values. */
    constructor ()
      ensures State() == CacheState("", 0, false)
    {
      columnMapCache := "";
      lastColumnMapBuild := 0;
      refreshInProgress := false;
    }

    /** `autoRefreshColumnMap` up to the build's `await`: returns whether it builds,
        having set `refreshInProgress` if so. */
    method StartRefresh(force: bool, now: int) returns (building: bool)
      modifies this
      ensures building <==> Builds(old(State()), force, now)
      ensures State() == if building then old(State()).(refreshInProgress := true) else old(State())
    {
      if refreshInProgress {
        return false;
      }
      if !force && columnMapCache != "" && now - lastColumnMapBuild < ColumnMapTtlMs {
        return false;
      }
      refreshInProgress := true;
      return true;
    }

    /** `autoRefreshColumnMap` after the build settled: the `try` tail, `catch` and `finally`. */
    method FinishRefresh(built: Option<string>, finishedAt: int) returns (events: seq<Event>)
      requires refreshInProgress
      modifies this
      ensures (State(), events) == Finish(old(State()), built, finishedAt)
    {
      if built.Some? {
        columnMapCache := built.value;
        lastColumnMapBuild := finishedAt;
        events := [ColumnMapUpdated(columnMapCache)];
      } else {
        events := [RefreshFailedToast];
      }
      refreshInProgress := false;
    }

    /** `autoRefreshColumnMap(force)`, with `now` and `finishedAt` the two clock readings
        and `workbook` the snapshot the host yields (`None` when it throws). */
    method AutoRefresh(force: bool, now: int, workbook: Option<Workbook>, finishedAt: int)
      returns (events: seq<Event>)
      modifies this
      ensures (State(), events) == Refresh(old(State()), force, now, BuiltMap(workbook), finishedAt)
    {
      var building := StartRefresh(force, now);
      if !building {
        return [];
      }
      var built: Option<string> := None;
      if workbook.Some? {
        var columnMap := BuildColumnMapInternal(workbook.value);
        built := Some(columnMap);
      }
      events := FinishRefresh(built, finishedAt);
    }

    /** `getCurrentColumnMap`: the cached map, no state change. */
    method GetCurrentColumnMap() returns (columnMap: string)
      ensures columnMap == columnMapCache
    {
      columnMap := columnMapCache;
    }

    /** The `workbook:changed` handler: drops the map and its timestamp. */
    method OnWorkbookChanged()
      modifies this
      ensures State() == Invalidated(old(State()))
    {
      columnMapCache := "";
      lastColumnMapBuild := 0;
    }
  }
}
