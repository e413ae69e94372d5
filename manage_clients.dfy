/**
  The table layout of the client management tool (`format_table`) and the
  type/status filter that `list_clients` applies to the catalog before it
  lays the clients out.
 */
module ManageClients {
  import opened Wrappers
  import opened Dicts
  import opened Json
  import opened Registry

  /** A table cell before `str()`: the tool passes strings and connection counts. */
  datatype Cell = Text(s: string) | Count(n: int)

  /** `str(cell)` */
  function Show(c: Cell): string {
    match c
    case Text(s) => s
    case Count(n) => DecimalText(n)
  }

  /** `[str(cell) for cell in row]` */
  function ShowRow(row: seq<Cell>): (r: seq<string>)
    ensures |r| == |row|
    ensures forall i :: 0 <= i < |row| ==> r[i] == Show(row[i])
  {
    seq(|row|, i requires 0 <= i < |row| => Show(row[i]))
  }

  /** What `format_table` raises: a row with a cell index the headers have no column for, or too few cells. */
  datatype TableError = IndexError

  const NoData := "No data to display"

  function Max(a: nat, b: nat): nat {
    if a < b then b else a
  }

  /** Column `i`'s width after the rows `rows`, starting from the header's width `w`; a short row leaves it alone. */
  function ColumnWidth(w: nat, rows: seq<seq<Cell>>, i: nat): (r: nat)
    ensures r >= w
    ensures forall k :: 0 <= k < |rows| && i < |rows[k]| ==> r >= |Show(rows[k][i])|
  {
    if |rows| == 0 then w
    else
      var last := rows[|rows| - 1];
      var m := ColumnWidth(w, rows[..|rows| - 1], i);
      if i < |last| then Max(m, |Show(last[i])|) else m
  }

  /** `widths` once the width loop has seen `rows`. */
  function Widths(headers: seq<string>, rows: seq<seq<Cell>>): (ws: seq<nat>)
    ensures |ws| == |headers|
  {
    seq(|headers|, i requires 0 <= i < |headers| => ColumnWidth(|headers[i]|, rows, i))
  }

  /** Every column is as wide as its header and as every cell below it. */
  lemma WidthsBound(headers: seq<string>, rows: seq<seq<Cell>>, i: nat)
    requires i < |headers|
    ensures Widths(headers, rows)[i] >= |headers[i]|
    ensures forall k :: 0 <= k < |rows| && i < |rows[k]| ==> Widths(headers, rows)[i] >= |Show(rows[k][i])|
  {
  }

  /** No column is wider than its header or than one of the cells below it. */
  lemma WidthsAttained(headers: seq<string>, rows: seq<seq<Cell>>, i: nat)
    requires i < |headers|
    ensures Widths(headers, rows)[i] == |headers[i]|
      || exists k :: 0 <= k < |rows| && i < |rows[k]| && Widths(headers, rows)[i] == |Show(rows[k][i])|
  {
    ColumnWidthAttained(|headers[i]|, rows, i);
  }

  lemma {:induction false} ColumnWidthAttained(w: nat, rows: seq<seq<Cell>>, i: nat)
    ensures ColumnWidth(w, rows, i) == w
      || exists k :: 0 <= k < |rows| && i < |rows[k]| && ColumnWidth(w, rows, i) == |Show(rows[k][i])|
  {
    if |rows| != 0 {
      var prefix := rows[..|rows| - 1];
      ColumnWidthAttained(w, prefix, i);
      if ColumnWidth(w, rows, i) != ColumnWidth(w, prefix, i) {
        assert ColumnWidth(w, rows, i) == |Show(rows[|rows| - 1][i])|;
      } else if ColumnWidth(w, prefix, i) != w {
        var k :| 0 <= k < |prefix| && i < |prefix[k]| && ColumnWidth(w, prefix, i) == |Show(prefix[k][i])|;
        assert prefix[k] == rows[k];
      }
    }
  }

  /** `c * n` for a one-character string `c`: `' ' * n`, `'-' * n` */
  function Repeat(c: char, n: nat): (r: string)
    ensures |r| == n && forall i :: 0 <= i < n ==> r[i] == c
  {
    seq(n, i => c)
  }

  /** `f"{s:<w}"`: `s`, then spaces up to width `w`; a longer `s` is not cut. */
  function PadRight(s: string, w: nat): (r: string)
    ensures |r| == Max(|s|, w)
    ensures r[..|s|] == s
    ensures forall i :: |s| <= i < |r| ==> r[i] == ' '
  {
    if |s| < w then s + Repeat(' ', w - |s|) else s
  }

  /** `sep.join(parts)` */
  function Join(sep: string, parts: seq<string>): string {
    if |parts| == 0 then ""
    else if |parts| == 1 then parts[0]
    else Join(sep, parts[..|parts| - 1]) + sep + parts[|parts| - 1]
  }

  /** The length of a join depends only on the lengths of the separator and of the parts. */
  lemma {:induction false} JoinLength(sep: string, sep': string, a: seq<string>, b: seq<string>)
    requires |sep| == |sep'| && |a| == |b|
    requires forall i :: 0 <= i < |a| ==> |a[i]| == |b[i]|
    ensures |Join(sep, a)| == |Join(sep', b)|
  {
    if |a| > 1 {
      JoinLength(sep, sep', a[..|a| - 1], b[..|b| - 1]);
    }
  }

  /** `[f"{cell:<width}" for cell, width in zip(cells, widths)]` */
  function PadCells(cells: seq<string>, widths: seq<nat>): (r: seq<string>)
    requires |cells| >= |widths|
    ensures |r| == |widths|
  {
    if |widths| == 0 then []
    else PadCells(cells, widths[..|widths| - 1]) + [PadRight(cells[|widths| - 1], widths[|widths| - 1])]
  }

  /** `["-" * width for width in widths]` */
  function DashRuns(widths: seq<nat>): (r: seq<string>)
    ensures |r| == |widths|
  {
    if |widths| == 0 then []
    else DashRuns(widths[..|widths| - 1]) + [Repeat('-', widths[|widths| - 1])]
  }

  /** Cell `i` padded to column `i`'s width. */
  lemma {:induction false} PadCellsAt(cells: seq<string>, widths: seq<nat>, i: nat)
    requires |cells| >= |widths| && i < |widths|
    ensures PadCells(cells, widths)[i] == PadRight(cells[i], widths[i])
  {
    var n := |widths| - 1;
    if i < n {
      PadCellsAt(cells, widths[..n], i);
    }
  }

  /** Run `i` of the separator has column `i`'s width. */
  lemma {:induction false} DashRunsAt(widths: seq<nat>, i: nat)
    requires i < |widths|
    ensures DashRuns(widths)[i] == Repeat('-', widths[i])
  {
    var n := |widths| - 1;
    if i < n {
      DashRunsAt(widths[..n], i);
    }
  }

  /** `row_format.format(*cells)`: each cell left-aligned in its column, columns joined by `" | "`. */
  function FormatRow(cells: seq<string>, widths: seq<nat>): string
    requires |cells| >= |widths|
  {
    Join(" | ", PadCells(cells, widths))
  }

  /** `"-+-".join(["-" * width for width in widths])` */
  function Separator(widths: seq<nat>): string {
    Join("-+-", DashRuns(widths))
  }

  /** A row whose cells fit their columns is exactly as long as the separator. */
  lemma FormatRowFits(cells: seq<string>, widths: seq<nat>)
    requires |cells| >= |widths|
    requires forall i :: 0 <= i < |widths| ==> |cells[i]| <= widths[i]
    ensures |FormatRow(cells, widths)| == |Separator(widths)|
  {
    var padded, dashes := PadCells(cells, widths), DashRuns(widths);
    forall i | 0 <= i < |widths| ensures |padded[i]| == |dashes[i]| {
      PadCellsAt(cells, widths, i);
      DashRunsAt(widths, i);
    }
    JoinLength(" | ", "-+-", padded, dashes);
  }

  /** One line per row, in order. */
  function RowLines(rows: seq<seq<Cell>>, ws: seq<nat>): (lines: seq<string>)
    requires Covers(rows, |ws|)
    ensures |lines| == |rows|
  {
    if |rows| == 0 then []
    else
      CoversPrefix(rows, |ws|, |rows| - 1);
      RowLines(rows[..|rows| - 1], ws) + [FormatRow(ShowRow(rows[|rows| - 1]), ws)]
  }

  /** Every row has at least `n` cells: enough for `n` columns. */
  ghost predicate Covers(rows: seq<seq<Cell>>, n: nat) {
    forall j :: 0 <= j < |rows| ==> |rows[j]| >= n
  }

  lemma CoversPrefix(rows: seq<seq<Cell>>, n: nat, k: nat)
    requires Covers(rows, n) && k <= |rows|
    ensures Covers(rows[..k], n)
  {
    forall j | 0 <= j < k ensures |rows[..k][j]| >= n {
      assert rows[..k][j] == rows[j];
    }
  }

  lemma CoversSnoc(rows: seq<seq<Cell>>, n: nat, k: nat)
    requires k < |rows| && Covers(rows[..k], n) && |rows[k]| >= n
    ensures Covers(rows[..k + 1], n)
  {
    forall j | 0 <= j < k + 1 ensures |rows[j]| >= n {
      if j < k {
        assert rows[j] == rows[..k][j];
      }
    }
  }

  /** The lines of the first `k + 1` rows: those of the first `k`, then row `k`'s. */
  lemma RowLinesSnoc(rows: seq<seq<Cell>>, ws: seq<nat>, k: nat)
    requires k < |rows|
    requires Covers(rows[..k], |ws|) && |rows[k]| >= |ws|
    ensures Covers(rows[..k + 1], |ws|)
    ensures RowLines(rows[..k + 1], ws) == RowLines(rows[..k], ws) + [FormatRow(ShowRow(rows[k]), ws)]
  {
    var p := rows[..k + 1];
    CoversSnoc(rows, |ws|, k);
    assert p[..|p| - 1] == rows[..k];
    assert p[|p| - 1] == rows[k];
  }

  /** Line `k` of the rows' lines is row `k` laid out. */
  lemma {:induction false} RowLinesAt(rows: seq<seq<Cell>>, ws: seq<nat>, k: nat)
    requires Covers(rows, |ws|)
    requires k < |rows|
    ensures RowLines(rows, ws)[k] == FormatRow(ShowRow(rows[k]), ws)
  {
    var n := |rows| - 1;
    CoversPrefix(rows, |ws|, n);
    var before := RowLines(rows[..n], ws);
    assert RowLines(rows, ws) == before + [FormatRow(ShowRow(rows[n]), ws)];
    if k < n {
      RowLinesAt(rows[..n], ws, k);
      assert rows[..n][k] == rows[k];
      assert RowLines(rows, ws)[k] == before[k];
    }
  }

  /** The lines of the table: header, separator, then one line per row in order. */
  function TableLines(data: seq<seq<Cell>>, headers: seq<string>): (lines: seq<string>)
    requires forall k :: 0 <= k < |data| ==> |data[k]| == |headers|
    ensures |lines| == |data| + 2
  {
    var ws := Widths(headers, data);
    [FormatRow(headers, ws), Separator(ws)] + RowLines(data, ws)
  }

  /** What `format_table(data, headers)` returns or raises. */
  function Tabulated(data: seq<seq<Cell>>, headers: seq<string>): Result<string, TableError> {
    if |data| == 0 then Ok(NoData)
    else if exists k :: 0 <= k < |data| && |data[k]| != |headers| then Err(IndexError)
    else Ok(Join("\n", TableLines(data, headers)))
  }

  /** Every line of the table is as long as the separator: the columns line up. */
  lemma TableLinesAligned(data: seq<seq<Cell>>, headers: seq<string>, k: nat)
    requires forall j :: 0 <= j < |data| ==> |data[j]| == |headers|
    requires k < |data| + 2
    ensures |TableLines(data, headers)[k]| == |TableLines(data, headers)[1]|
  {
    if k == 0 {
      HeaderFits(data, headers);
    } else if k >= 2 {
      RowFits(data, headers, k - 2);
    }
  }

  /** The header line is as long as the separator. */
  lemma HeaderFits(data: seq<seq<Cell>>, headers: seq<string>)
    requires forall j :: 0 <= j < |data| ==> |data[j]| == |headers|
    ensures |TableLines(data, headers)[0]| == |TableLines(data, headers)[1]|
  {
    var ws := Widths(headers, data);
    forall i | 0 <= i < |ws| ensures |headers[i]| <= ws[i] {
      WidthsBound(headers, data, i);
    }
    FormatRowFits(headers, ws);
  }

  /** The line of row `k` is as long as the separator. */
  lemma RowFits(data: seq<seq<Cell>>, headers: seq<string>, k: nat)
    requires forall j :: 0 <= j < |data| ==> |data[j]| == |headers|
    requires k < |data|
    ensures |TableLines(data, headers)[k + 2]| == |TableLines(data, headers)[1]|
  {
    var ws := Widths(headers, data);
    var cells := ShowRow(data[k]);
    forall i | 0 <= i < |ws| ensures |cells[i]| <= ws[i] {
      WidthsBound(headers, data, i);
      assert |Show(data[k][i])| <= ws[i];
    }
    FormatRowFits(cells, ws);
    RowLinesAt(data, ws, k);
  }

  /** The header line, the separator, and row `k` in line `k + 2`, each cell padded to its column. */
  lemma TableLayout(data: seq<seq<Cell>>, headers: seq<string>)
    requires |data| != 0
    requires forall j :: 0 <= j < |data| ==> |data[j]| == |headers|
    ensures Tabulated(data, headers) == Ok(Join("\n", TableLines(data, headers)))
    ensures var ws := Widths(headers, data);
      && TableLines(data, headers)[0] == FormatRow(headers, ws)
      && TableLines(data, headers)[1] == Separator(ws)
      && (forall k :: 0 <= k < |data| ==> TableLines(data, headers)[k + 2] == FormatRow(ShowRow(data[k]), ws))
  {
    var ws := Widths(headers, data);
    forall k | 0 <= k < |data| ensures TableLines(data, headers)[k + 2] == FormatRow(ShowRow(data[k]), ws) {
      RowLinesAt(data, ws, k);
    }
  }

  /** `format_table(data, headers)` */
  method FormatTable(data: seq<seq<Cell>>, headers: seq<string>) returns (r: Result<string, TableError>)
    ensures r == Tabulated(data, headers)
  {
    if |data| == 0 {
      return Ok(NoData);
    }
    var measured := MeasureColumns(data, headers);
    if measured.None? {
      return Err(IndexError);
    }
    var lines := LayOut(data, headers, measured.value);
    if lines.None? {
      return Err(IndexError);
    }
    return Ok(Join("\n", lines.value));
  }

  /**
    The result loop of `format_table`: the header line, the separator, then
    one line per row; a row with fewer cells than there are columns raises
    (`None`).
   */
  method LayOut(data: seq<seq<Cell>>, headers: seq<string>, widths: seq<nat>) returns (r: Option<seq<string>>)
    requires |widths| == |headers|
    requires forall j :: 0 <= j < |data| ==> |data[j]| <= |headers|
    ensures r.None? <==> exists j :: 0 <= j < |data| && |data[j]| < |headers|
    ensures r.Some? ==> r.value == [FormatRow(headers, widths), Separator(widths)] + RowLines(data, widths)
  {
    var result := [FormatRow(headers, widths), Separator(widths)];
    var k := 0;
    while k < |data|
      invariant 0 <= k <= |data|
      invariant Covers(data[..k], |widths|)
      invariant result == [FormatRow(headers, widths), Separator(widths)] + RowLines(data[..k], widths)
    {
      if |data[k]| < |widths| {
        assert 0 <= k < |data| && |data[k]| < |headers|;
        return None;
      }
      RowLinesSnoc(data, widths, k);
      result := result + [FormatRow(ShowRow(data[k]), widths)];
      k := k + 1;
    }
    assert data[..k] == data;
    assert !exists j :: 0 <= j < |data| && |data[j]| < |headers|;
    return Some(result);
  }

  /**
    The width loop of `format_table`: `widths[i] = max(widths[i], len(str(cell)))`
    for every cell, row by row; a row with more cells than there are headers
    raises (`None`).
   */
  method MeasureColumns(data: seq<seq<Cell>>, headers: seq<string>) returns (r: Option<seq<nat>>)
    ensures r.None? <==> exists k :: 0 <= k < |data| && |data[k]| > |headers|
    ensures r.Some? ==> r.value == Widths(headers, data)
  {
    var widths := seq(|headers|, i requires 0 <= i < |headers| => |headers[i]| as nat);
    var k := 0;
    while k < |data|
      invariant 0 <= k <= |data|
      invariant forall j :: 0 <= j < k ==> |data[j]| <= |headers|
      invariant widths == Widths(headers, data[..k])
    {
      var row := data[k];
      assert data[..k + 1][..k] == data[..k] && data[..k + 1][k] == row;
      var i := 0;
      while i < |row|
        invariant 0 <= i <= |row| && i <= |headers|
        invariant |widths| == |headers|
        invariant forall c :: 0 <= c < |headers| ==>
          widths[c] == if c < i then ColumnWidth(|headers[c]|, data[..k + 1], c) else ColumnWidth(|headers[c]|, data[..k], c)
      {
        if i >= |widths| {
          return None;
        }
        widths := widths[i := Max(widths[i], |Show(row[i])|)];
        i := i + 1;
      }
      k := k + 1;
    }
    assert data[..k] == data;
    return Some(widths);
  }

  /** A filter argument that selects: `if client_type:` / `if status:` */
  predicate Given(arg: Option<string>) {
    arg.Some? && arg.value != ""
  }

  /** The catalog, narrowed by type and then by status, as `list_clients` narrows it. */
  function ListClientsFilter(clients: Dict<string, ClientInfo>, clientType: Option<string>, status: Option<string>): (r: Dict<string, ClientInfo>)
    requires clients.Valid()
    ensures r.Valid()
    ensures forall id :: id in r.items <==>
      && id in clients.items
      && (Given(clientType) ==> clients.items[id].clientType == clientType.value)
      && (Given(status) ==> clients.items[id].status == status.value)
    ensures forall id :: id in r.items ==> r.items[id] == clients.items[id]
    ensures SubSeq(r.keys, clients.keys)
  {
    var byType := if Given(clientType) then clients.Filter((c: ClientInfo) => c.clientType == clientType.value) else clients;
    SubSeqReflexive(clients.keys);
    var byStatus := if Given(status) then byType.Filter((c: ClientInfo) => c.status == status.value) else byType;
    SubSeqReflexive(byType.keys);
    SubSeqTransitive(byStatus.keys, byType.keys, clients.keys);
    byStatus
  }
}
