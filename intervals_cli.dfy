/**
 * The text formatting of the activity-listing command line tool: the
 * HH:MM:SS moving time, the printable form of a value, and the table of
 * activities with its padded, `|`-separated columns. Console output is the
 * list of lines the tool prints.
 */
module IntervalsCli {
  import opened Wrappers
  import opened Strings
  import opened Json

  // ---------------------------------------------------------------------
  // formatDuration
  // ---------------------------------------------------------------------

  /** Digits of a padded field. */
  predicate AllDigits(s: string) {
    forall i :: 0 <= i < |s| ==> '0' <= s[i] <= '9'
  }

  /** Zeros in front of a digit string do not change its value. */
  lemma {:induction false} ZerosValue(k: nat)
    ensures AllDigits(Repeat('0', k)) && DigitsValue(Repeat('0', k)) == 0
  {
    if k > 0 {
      ZerosValue(k - 1);
      var z := Repeat('0', k);
      assert z[..k - 1] == Repeat('0', k - 1);
    }
  }

  lemma {:induction false} LeadingZerosValue(k: nat, d: string)
    requires AllDigits(d)
    ensures AllDigits(Repeat('0', k) + d)
    ensures DigitsValue(Repeat('0', k) + d) == DigitsValue(d)
  {
    var z := Repeat('0', k);
    ZerosValue(k);
    if d == [] {
      assert z + d == z;
    } else {
      var p := d[..|d| - 1];
      LeadingZerosValue(k, p);
      assert (z + d)[..|z + d| - 1] == z + p;
      assert (z + d)[|z + d| - 1] == d[|d| - 1];
    }
  }

  /** `String(n).padStart(2, "0")`: at least two digits, reading back as `n`. */
  function Field(n: nat): (r: string)
    ensures |r| >= 2 && AllDigits(r) && DigitsValue(r) == n
    ensures n < 100 ==> |r| == 2
  {
    var d := NatToString(n);
    NatToStringValue(n);
    if |d| >= 2 then d
    else
      LeadingZerosValue(2 - |d|, d);
      Repeat('0', 2 - |d|) + d
  }

  /** `formatDuration`: "" for a missing value, otherwise hours, minutes and seconds separated by ':'. */
  function FormatDuration(seconds: Option<nat>): (r: string)
    ensures seconds.Some? ==> |r| >= 8 && r[|r| - 3] == ':' && r[|r| - 6] == ':'
  {
    match seconds
    case None => ""
    case Some(s) => Clock(s / 3600, s % 3600 / 60, s % 60)
  }

  /** `${hours}:${minutes}:${secs}` with each field padded. */
  function Clock(hours: nat, minutes: nat, secs: nat): string {
    Field(hours) + ":" + Field(minutes) + ":" + Field(secs)
  }

  /** Reads "H:MM:SS" back into seconds; None unless there are three digit fields. */
  function ReadDuration(t: string): (r: Option<nat>)
  {
    ReadParts(Split(t, ':'))
  }

  function ReadParts(parts: seq<string>): (r: Option<nat>)
  {
    if |parts| == 3 && parts[0] != [] && parts[1] != [] && parts[2] != []
      && AllDigits(parts[0]) && AllDigits(parts[1]) && AllDigits(parts[2])
    then Some(DigitsValue(parts[0]) * 3600 + DigitsValue(parts[1]) * 60 + DigitsValue(parts[2]))
    else None
  }

  /** The three fields of a clock text. */
  lemma ClockFields(x: nat, y: nat, z: nat)
    ensures Split(Clock(x, y, z), ':') == [Field(x), Field(y), Field(z)]
  {
    var h, m, c := Field(x), Field(y), Field(z);
    DigitsNoColon(h);
    DigitsNoColon(m);
    DigitsNoColon(c);
    SplitThree(h, m, c, ':');
  }

  /** A clock text reads back as its hours, minutes and seconds weighted. */
  lemma ClockRead(x: nat, y: nat, z: nat, n: nat)
    requires n == x * 3600 + y * 60 + z
    ensures ReadDuration(Clock(x, y, z)) == Some(n)
  {
    ClockFields(x, y, z);
    ReadBack(Clock(x, y, z), Field(x), Field(y), Field(z), x, y, z, n);
  }

  lemma DigitsNoColon(s: string)
    requires AllDigits(s)
    ensures ':' !in s
  {
  }

  /** Three pieces without the separator, joined by it, split back into the three. */
  lemma SplitThree(a: string, b: string, c: string, sep: char)
    requires sep !in a && sep !in b && sep !in c
    ensures Split(a + [sep] + b + [sep] + c, sep) == [a, b, c]
  {
    var ws := [a, b, c];
    assert ws[1..] == [b, c] && ws[1..][1..] == [c];
    assert Join([b, c], [sep]) == b + [sep] + c;
    assert Join(ws, [sep]) == a + [sep] + (b + [sep] + c);
    assert a + [sep] + (b + [sep] + c) == a + [sep] + b + [sep] + c;
    SplitJoin(ws, sep);
  }

  /**
   * The minute and second fields are two digits below 60; the hour field has
   * at least two digits and is not capped.
   */
  lemma DurationBounds(s: nat)
    ensures var parts := Split(FormatDuration(Some(s)), ':');
      && |parts| == 3 && AllDigits(parts[0]) && AllDigits(parts[1]) && AllDigits(parts[2])
      && |parts[0]| >= 2 && |parts[1]| == 2 && |parts[2]| == 2
      && DigitsValue(parts[0]) == s / 3600
      && DigitsValue(parts[1]) == s % 3600 / 60 < 60 && DigitsValue(parts[2]) == s % 60 < 60
  {
    ClockFields(s / 3600, s % 3600 / 60, s % 60);
  }

  /** Hours, minutes and seconds add up again. */
  lemma ClockParts(s: nat)
    ensures s == s / 3600 * 3600 + s % 3600 / 60 * 60 + s % 60
  {
    var h, r := s / 3600, s % 3600;
    var m, c := r / 60, r % 60;
    assert s == 3600 * h + r && r == 60 * m + c;
    ModSixty(s, 60 * h + m, c);
  }

  lemma ModSixty(x: nat, q: nat, c: nat)
    requires x == 60 * q + c && c < 60
    ensures x % 60 == c
  {
  }

  /** Reading a formatted duration gives back the seconds. */
  lemma FormatDurationRoundTrip(s: nat)
    ensures ReadDuration(FormatDuration(Some(s))) == Some(s)
  {
    var x, y, z := s / 3600, s % 3600 / 60, s % 60;
    ClockParts(s);
    ClockRead(x, y, z, s);
  }

  /** A text that splits into three digit fields reads as their weighted sum. */
  lemma ReadBack(t: string, a: string, b: string, c: string, x: nat, y: nat, z: nat, n: nat)
    requires Split(t, ':') == [a, b, c]
    requires a != [] && b != [] && c != [] && AllDigits(a) && AllDigits(b) && AllDigits(c)
    requires DigitsValue(a) == x && DigitsValue(b) == y && DigitsValue(c) == z
    requires n == x * 3600 + y * 60 + z
    ensures ReadDuration(t) == Some(n)
  {
    var parts := Split(t, ':');
    assert parts[0] == a && parts[1] == b && parts[2] == c;
    assert DigitsValue(parts[0]) * 3600 + DigitsValue(parts[1]) * 60 + DigitsValue(parts[2]) == n;
  }

  /** Only a missing value formats as "". */
  lemma FormatDurationEmpty(seconds: Option<nat>)
    ensures FormatDuration(seconds) == "" <==> seconds.None?
  {
  }

  lemma FormatDurationInjective(a: nat, b: nat)
    requires FormatDuration(Some(a)) == FormatDuration(Some(b))
    ensures a == b
  {
    FormatDurationRoundTrip(a);
    FormatDurationRoundTrip(b);
  }

  // ---------------------------------------------------------------------
  // formatValue
  // ---------------------------------------------------------------------

  /** `formatValue`: "" for null or undefined, otherwise `String(value)`. */
  function FormatValue(v: Option<Json>): (r: string)
    ensures v.None? || v == Some(JNull) ==> r == ""
    ensures v.Some? && v.value.JStr? ==> r == v.value.s
    ensures v.Some? && v.value.JNum? ==> r == IntToString(v.value.n)
  {
    match v
    case None => ""
    case Some(JNull) => ""
    case Some(x) => JsString(x)
  }

  /** Distinct numbers print differently, so ids in the table stay distinct. */
  lemma FormatValueNumbers(a: int, b: int)
    requires FormatValue(Some(JNum(a))) == FormatValue(Some(JNum(b)))
    ensures a == b
  {
    IntToStringInjective(a, b);
  }

  // ---------------------------------------------------------------------
  // renderTable
  // ---------------------------------------------------------------------

  /** A row: its fields in insertion order, as `Object.keys` lists them. */
  type Row = seq<(string, string)>

  function Keys(row: Row): (r: seq<string>)
    ensures |r| == |row| && forall i :: 0 <= i < |row| ==> r[i] == row[i].0
  {
    if row == [] then [] else [row[0].0] + Keys(row[1..])
  }

  /** `row[header] ?? ""` */
  function Cell(row: Row, header: string): (r: string)
    ensures (exists i :: 0 <= i < |row| && row[i] == (header, r)) || (r == "" && forall i :: 0 <= i < |row| ==> row[i].0 != header)
  {
    if row == [] then ""
    else if row[0].0 == header then row[0].1
    else Cell(row[1..], header)
  }

  /** The longest cell of a column, 0 for no rows. */
  function LongestCell(rows: seq<Row>, header: string): (r: nat)
    ensures forall k :: 0 <= k < |rows| ==> |Cell(rows[k], header)| <= r
    ensures r == 0 || exists k :: 0 <= k < |rows| && |Cell(rows[k], header)| == r
  {
    if rows == [] then 0
    else
      var rest := LongestCell(rows[1..], header);
      assert forall k :: 1 <= k < |rows| ==> rows[k] == rows[1..][k - 1];
      var c := |Cell(rows[0], header)|;
      if c >= rest then c else rest
  }

  /** `Math.max(header.length, ...cells)`: the column width. */
  function ColumnWidth(header: string, rows: seq<Row>): (r: nat)
    ensures |header| <= r && forall k :: 0 <= k < |rows| ==> |Cell(rows[k], header)| <= r
    ensures r == |header| || exists k :: 0 <= k < |rows| && |Cell(rows[k], header)| == r
  {
    var longest := LongestCell(rows, header);
    if |header| >= longest then |header| else longest
  }

  function Widths(headers: seq<string>, rows: seq<Row>): (r: seq<nat>)
    ensures |r| == |headers| && forall i :: 0 <= i < |headers| ==> r[i] == ColumnWidth(headers[i], rows)
  {
    if headers == [] then [] else [ColumnWidth(headers[0], rows)] + Widths(headers[1..], rows)
  }

  /** The cells of a row, in the order of the headers. */
  function RowCells(row: Row, headers: seq<string>): (r: seq<string>)
    ensures |r| == |headers| && forall i :: 0 <= i < |headers| ==> r[i] == Cell(row, headers[i])
  {
    if headers == [] then [] else [Cell(row, headers[0])] + RowCells(row, headers[1..])
  }

  /** `"-".repeat(w + 2)` per column. */
  function Dashes(widths: seq<nat>): (r: seq<string>)
    ensures |r| == |widths| && forall i :: 0 <= i < |widths| ==> r[i] == Repeat('-', widths[i] + 2)
  {
    if widths == [] then [] else [Repeat('-', widths[0] + 2)] + Dashes(widths[1..])
  }

  /** `` ` ${value.padEnd(width)} ` `` per column. */
  function Padded(cells: seq<string>, widths: seq<nat>): (r: seq<string>)
    requires |cells| == |widths|
    ensures |r| == |cells| && forall i :: 0 <= i < |cells| ==> r[i] == " " + PadEnd(cells[i], widths[i]) + " "
  {
    if cells == [] then [] else [" " + PadEnd(cells[0], widths[0]) + " "] + Padded(cells[1..], widths[1..])
  }

  function Divider(widths: seq<nat>): string {
    Join(Dashes(widths), "+")
  }

  function FormatLine(cells: seq<string>, widths: seq<nat>): string
    requires |cells| == |widths|
  {
    Join(Padded(cells, widths), "|")
  }

  /** `renderTable`: the lines it prints; the headers are the keys of the first row. */
  function RenderTable(rows: seq<Row>): (r: seq<string>)
    requires rows != []
    ensures |r| == |rows| + 4
  {
    var headers := Keys(rows[0]);
    Table(rows, headers, Widths(headers, rows))
  }

  /** The printed lines for given headers and widths. */
  function Table(rows: seq<Row>, headers: seq<string>, widths: seq<nat>): (r: seq<string>)
    requires |headers| == |widths|
    ensures |r| == |rows| + 4
  {
    var divider := Divider(widths);
    [divider, FormatLine(headers, widths), divider] + RowLines(rows, headers, widths) + [divider]
  }

  /** `rows.forEach(row => console.log(formatRow(row)))` */
  function RowLines(rows: seq<Row>, headers: seq<string>, widths: seq<nat>): (r: seq<string>)
    requires |headers| == |widths|
    ensures |r| == |rows| && forall k :: 0 <= k < |rows| ==> r[k] == FormatLine(RowCells(rows[k], headers), widths)
  {
    if rows == [] then []
    else [FormatLine(RowCells(rows[0], headers), widths)] + RowLines(rows[1..], headers, widths)
  }

  /** The sum of `width + 2` over the columns. */
  function Span(widths: seq<nat>): nat {
    if widths == [] then 0 else widths[0] + 2 + Span(widths[1..])
  }

  /** Where column `i` starts in a line: past the earlier columns and their separators. */
  function ColumnStart(widths: seq<nat>, i: nat): nat
    requires i <= |widths|
  {
    if i == 0 then 0 else widths[0] + 3 + ColumnStart(widths[1..], i - 1)
  }

  /** The total length of some parts. */
  function Lengths(parts: seq<string>): nat {
    if parts == [] then 0 else |parts[0]| + Lengths(parts[1..])
  }

  /** Where part `i` starts once the parts are joined by a one-character separator. */
  function PartStart(parts: seq<string>, i: nat): nat
    requires i <= |parts|
  {
    if i == 0 then 0 else |parts[0]| + 1 + PartStart(parts[1..], i - 1)
  }

  lemma {:induction false} JoinLength(parts: seq<string>, sep: string)
    requires |sep| == 1 && parts != []
    ensures |Join(parts, sep)| == Lengths(parts) + |parts| - 1
  {
    if |parts| > 1 {
      JoinLength(parts[1..], sep);
    }
  }

  /** Part `i` of a joined line sits at its start. */
  lemma {:induction false} JoinPart(parts: seq<string>, sep: string, i: nat)
    requires |sep| == 1 && i < |parts|
    ensures PartStart(parts, i) + |parts[i]| <= |Join(parts, sep)|
    ensures Join(parts, sep)[PartStart(parts, i)..PartStart(parts, i) + |parts[i]|] == parts[i]
  {
    if |parts| > 1 {
      var rest := Join(parts[1..], sep);
      var line := parts[0] + sep + rest;
      assert Join(parts, sep) == line;
      if i == 0 {
        assert line[..|parts[0]|] == parts[0];
      } else {
        JoinPart(parts[1..], sep, i - 1);
        var c := PartStart(parts[1..], i - 1);
        assert parts[1..][i - 1] == parts[i];
        SliceAfter(parts[0] + sep, rest, c, |parts[i]|);
      }
    }
  }

  /** A slice past a prefix is the same slice of what follows the prefix. */
  lemma SliceAfter(p: string, rest: string, c: nat, n: nat)
    requires c + n <= |rest|
    ensures (p + rest)[|p| + c..|p| + c + n] == rest[c..c + n]
  {
    var a, b := (p + rest)[|p| + c..|p| + c + n], rest[c..c + n];
    forall j | 0 <= j < n
      ensures a[j] == b[j]
    {
    }
  }

  /** The separator follows every part but the last. */
  lemma {:induction false} JoinSeparator(parts: seq<string>, sep: string, i: nat)
    requires |sep| == 1 && i + 1 < |parts|
    ensures PartStart(parts, i) + |parts[i]| < |Join(parts, sep)|
    ensures Join(parts, sep)[PartStart(parts, i) + |parts[i]|] == sep[0]
  {
    var rest := Join(parts[1..], sep);
    var line := parts[0] + sep + rest;
    assert Join(parts, sep) == line;
    if i > 0 {
      JoinSeparator(parts[1..], sep, i - 1);
      var c := PartStart(parts[1..], i - 1);
      assert parts[1..][i - 1] == parts[i];
      assert line[|parts[0]| + 1 + c + |parts[i]|] == rest[c + |parts[i]|];
    }
  }

  /** Parts of `width + 2` characters: the sums in terms of the widths. */
  lemma {:induction false} ColumnSums(parts: seq<string>, widths: seq<nat>)
    requires |parts| == |widths|
    requires forall i :: 0 <= i < |parts| ==> |parts[i]| == widths[i] + 2
    ensures Lengths(parts) == Span(widths)
    ensures forall i :: 0 <= i <= |parts| ==> PartStart(parts, i) == ColumnStart(widths, i)
  {
    if parts != [] {
      ColumnSums(parts[1..], widths[1..]);
      forall i | 1 <= i <= |parts|
        ensures PartStart(parts, i) == ColumnStart(widths, i)
      {
      }
    }
  }

  /** Padded cells that fit their columns take exactly `width + 2` characters. */
  lemma PaddedFit(cells: seq<string>, widths: seq<nat>)
    requires |cells| == |widths|
    requires forall i :: 0 <= i < |cells| ==> |cells[i]| <= widths[i]
    ensures forall i :: 0 <= i < |cells| ==> |Padded(cells, widths)[i]| == widths[i] + 2
  {
  }

  /** Column `c` of `line`: a space, the cell, spaces up to the width, a space. */
  predicate CellAt(line: string, c: nat, width: nat, cell: string) {
    && |cell| <= width && c + width + 2 <= |line|
    && line[c] == ' ' && line[c + 1..c + 1 + |cell|] == cell
    && (forall j :: c + 1 + |cell| <= j < c + width + 2 ==> line[j] == ' ')
  }

  /**
   * A table line for `cells`: as long as the sum of `width + 2` plus one
   * separator between two columns, column `i` holding cell `i`, and a '|'
   * closing every column but the last.
   */
  predicate LaidOut(line: string, cells: seq<string>, widths: seq<nat>)
    requires |cells| == |widths|
  {
    && |line| == Span(widths) + |widths| - 1
    && (forall i :: 0 <= i < |cells| ==> CellAt(line, ColumnStart(widths, i), widths[i], cells[i]))
    && (forall i :: 0 <= i < |cells| - 1 ==>
          ColumnStart(widths, i) + widths[i] + 2 < |line| && line[ColumnStart(widths, i) + widths[i] + 2] == '|')
  }

  /** A line of cells that fit their columns is laid out column by column. */
  lemma LineLayout(cells: seq<string>, widths: seq<nat>)
    requires |cells| == |widths| && cells != []
    requires forall i :: 0 <= i < |cells| ==> |cells[i]| <= widths[i]
    ensures LaidOut(FormatLine(cells, widths), cells, widths)
  {
    var parts := Padded(cells, widths);
    var line := FormatLine(cells, widths);
    PaddedFit(cells, widths);
    ColumnSums(parts, widths);
    JoinLength(parts, "|");
    forall i | 0 <= i < |cells|
      ensures CellAt(line, ColumnStart(widths, i), widths[i], cells[i])
    {
      ColumnCell(cells, widths, i);
    }
    forall i | 0 <= i < |cells| - 1
      ensures ColumnStart(widths, i) + widths[i] + 2 < |line| && line[ColumnStart(widths, i) + widths[i] + 2] == '|'
    {
      ColumnBar(cells, widths, i);
    }
  }

  /** Column `i` of a formatted line holds cell `i`. */
  lemma ColumnCell(cells: seq<string>, widths: seq<nat>, i: nat)
    requires |cells| == |widths| && i < |cells|
    requires forall i :: 0 <= i < |cells| ==> |cells[i]| <= widths[i]
    ensures CellAt(FormatLine(cells, widths), ColumnStart(widths, i), widths[i], cells[i])
  {
    var parts := Padded(cells, widths);
    var c := ColumnStart(widths, i);
    PaddedFit(cells, widths);
    ColumnSums(parts, widths);
    JoinPart(parts, "|", i);
    assert PartStart(parts, i) == c && |parts[i]| == widths[i] + 2;
    PaddedCell(FormatLine(cells, widths), c, widths[i], cells[i]);
  }

  /** A '|' closes column `i` of a formatted line when another column follows. */
  lemma ColumnBar(cells: seq<string>, widths: seq<nat>, i: nat)
    requires |cells| == |widths| && i + 1 < |cells|
    requires forall i :: 0 <= i < |cells| ==> |cells[i]| <= widths[i]
    ensures var line := FormatLine(cells, widths);
      ColumnStart(widths, i) + widths[i] + 2 < |line| && line[ColumnStart(widths, i) + widths[i] + 2] == '|'
  {
    var parts := Padded(cells, widths);
    PaddedFit(cells, widths);
    ColumnSums(parts, widths);
    JoinSeparator(parts, "|", i);
    assert PartStart(parts, i) == ColumnStart(widths, i) && |parts[i]| == widths[i] + 2;
  }

  lemma PaddedCell(line: string, c: nat, width: nat, cell: string)
    requires |cell| <= width
    requires c + width + 2 <= |line| && line[c..c + width + 2] == " " + PadEnd(cell, width) + " "
    ensures CellAt(line, c, width, cell)
  {
    var pad := Repeat(' ', width - |cell|);
    var p := " " + cell + pad + " ";
    assert line[c..c + width + 2] == p;
    forall j | c <= j < c + width + 2
      ensures line[j] == p[j - c]
    {
      assert line[c..c + width + 2][j - c] == line[j];
    }
    forall j | c + 1 + |cell| <= j < c + width + 2
      ensures line[j] == ' '
    {
      if j < c + width + 1 {
        assert p[j - c] == pad[j - c - 1 - |cell|];
      }
    }
    assert line[c + 1..c + 1 + |cell|] == cell by {
      forall j | 0 <= j < |cell|
        ensures line[c + 1 + j] == cell[j]
      {
        assert p[1 + j] == cell[j];
      }
    }
  }

  /** A divider: as long as a table line, dashes over every column. */
  predicate Dashed(line: string, widths: seq<nat>) {
    && |line| == Span(widths) + |widths| - 1
    && forall i, j :: 0 <= i < |widths| && ColumnStart(widths, i) <= j < ColumnStart(widths, i) + widths[i] + 2 ==>
         j < |line| && line[j] == '-'
  }

  lemma DividerLayout(widths: seq<nat>)
    requires widths != []
    ensures Dashed(Divider(widths), widths)
  {
    var parts := Dashes(widths);
    ColumnSums(parts, widths);
    JoinLength(parts, "+");
    forall i | 0 <= i < |widths|
      ensures ColumnStart(widths, i) + widths[i] + 2 <= |Divider(widths)|
      ensures forall j :: ColumnStart(widths, i) <= j < ColumnStart(widths, i) + widths[i] + 2 ==> Divider(widths)[j] == '-'
    {
      DashesAt(widths, i);
    }
  }

  lemma DashesAt(widths: seq<nat>, i: nat)
    requires i < |widths|
    ensures ColumnStart(widths, i) + widths[i] + 2 <= |Divider(widths)|
    ensures forall j :: ColumnStart(widths, i) <= j < ColumnStart(widths, i) + widths[i] + 2 ==> Divider(widths)[j] == '-'
  {
    var parts := Dashes(widths);
    var line := Divider(widths);
    var c := ColumnStart(widths, i);
    ColumnSums(parts, widths);
    JoinPart(parts, "+", i);
    assert PartStart(parts, i) == c && parts[i] == Repeat('-', widths[i] + 2);
    forall j | c <= j < c + widths[i] + 2
      ensures line[j] == '-'
    {
      assert line[c..c + widths[i] + 2][j - c] == line[j];
    }
  }

  /** The lines of the table in order: divider, header, divider, the rows, divider. */
  lemma {:induction false} TableLines(rows: seq<Row>, headers: seq<string>, widths: seq<nat>)
    requires |headers| == |widths|
    ensures var table := Table(rows, headers, widths);
      && table[0] == table[2] == table[|rows| + 3] == Divider(widths)
      && table[1] == FormatLine(headers, widths)
      && forall k :: 0 <= k < |rows| ==> table[3 + k] == FormatLine(RowCells(rows[k], headers), widths)
  {
    Framed(Divider(widths), FormatLine(headers, widths), RowLines(rows, headers, widths));
  }

  /** The frame of a table around its body, for any lines. */
  lemma Framed(d: string, h: string, body: seq<string>)
    ensures var table := [d, h, d] + body + [d];
      && |table| == |body| + 4 && table[0] == table[2] == table[|body| + 3] == d && table[1] == h
      && forall k :: 0 <= k < |body| ==> table[3 + k] == body[k]
  {
  }

  /** Line `3 + k` of the table is row `k`. */
  lemma TableRow(rows: seq<Row>, headers: seq<string>, widths: seq<nat>, k: nat)
    requires |headers| == |widths| && k < |rows|
    ensures Table(rows, headers, widths)[3 + k] == FormatLine(RowCells(rows[k], headers), widths)
  {
    Framed(Divider(widths), FormatLine(headers, widths), RowLines(rows, headers, widths));
  }

  /** Headers and cells no wider than their columns. */
  predicate Fits(rows: seq<Row>, headers: seq<string>, widths: seq<nat>)
    requires |headers| == |widths|
  {
    && (forall i :: 0 <= i < |headers| ==> |headers[i]| <= widths[i])
    && forall k, i :: 0 <= k < |rows| && 0 <= i < |headers| ==> |Cell(rows[k], headers[i])| <= widths[i]
  }

  /** The widths `renderTable` computes fit the headers and every cell. */
  lemma {:induction false} WidthsFit(rows: seq<Row>)
    requires rows != []
    ensures Fits(rows, Keys(rows[0]), Widths(Keys(rows[0]), rows))
  {
  }

  lemma {:induction false} TableLayoutOf(rows: seq<Row>, headers: seq<string>, widths: seq<nat>)
    requires |headers| == |widths| && headers != [] && Fits(rows, headers, widths)
    ensures var table := Table(rows, headers, widths);
      && Dashed(table[0], widths) && Dashed(table[2], widths) && Dashed(table[|rows| + 3], widths)
      && LaidOut(table[1], headers, widths)
      && forall k :: 0 <= k < |rows| ==> LaidOut(table[3 + k], RowCells(rows[k], headers), widths)
  {
    TableLines(rows, headers, widths);
    DividerLayout(widths);
    LineLayout(headers, widths);
    forall k | 0 <= k < |rows|
      ensures LaidOut(Table(rows, headers, widths)[3 + k], RowCells(rows[k], headers), widths)
    {
      RowLayout(rows, headers, widths, k);
    }
  }

  lemma RowLayout(rows: seq<Row>, headers: seq<string>, widths: seq<nat>, k: nat)
    requires |headers| == |widths| && headers != [] && Fits(rows, headers, widths) && k < |rows|
    ensures LaidOut(Table(rows, headers, widths)[3 + k], RowCells(rows[k], headers), widths)
  {
    TableRow(rows, headers, widths, k);
    var cells := RowCells(rows[k], headers);
    assert forall i :: 0 <= i < |cells| ==> |cells[i]| <= widths[i];
    LineLayout(cells, widths);
  }

  /**
   * The header line and each row line hold their cells column by column,
   * between dividers of dashes.
   */
  lemma {:induction false} TableLayout(rows: seq<Row>)
    requires rows != [] && rows[0] != []
    ensures var headers := Keys(rows[0]);
      var widths := Widths(headers, rows);
      var table := RenderTable(rows);
      && Dashed(table[0], widths) && Dashed(table[2], widths) && Dashed(table[|rows| + 3], widths)
      && LaidOut(table[1], headers, widths)
      && forall k :: 0 <= k < |rows| ==> LaidOut(table[3 + k], RowCells(rows[k], headers), widths)
  {
    WidthsFit(rows);
    TableLayoutOf(rows, Keys(rows[0]), Widths(Keys(rows[0]), rows));
  }

  lemma {:induction false} LineLengthsOf(rows: seq<Row>, headers: seq<string>, widths: seq<nat>)
    requires |headers| == |widths| && headers != [] && Fits(rows, headers, widths)
    ensures forall x :: 0 <= x < |Table(rows, headers, widths)| ==>
      |Table(rows, headers, widths)[x]| == Span(widths) + |widths| - 1
  {
    TableLines(rows, headers, widths);
    var table := Table(rows, headers, widths);
    DividerLength(widths);
    LineLength(headers, widths);
    forall x | 0 <= x < |table|
      ensures |table[x]| == Span(widths) + |widths| - 1
    {
      if 3 <= x < |rows| + 3 {
        assert table[x] == table[3 + (x - 3)];
        LineLength(RowCells(rows[x - 3], headers), widths);
      }
    }
  }

  lemma LineLength(cells: seq<string>, widths: seq<nat>)
    requires |cells| == |widths| && cells != []
    requires forall i :: 0 <= i < |cells| ==> |cells[i]| <= widths[i]
    ensures |FormatLine(cells, widths)| == Span(widths) + |widths| - 1
  {
    var parts := Padded(cells, widths);
    PaddedFit(cells, widths);
    ColumnSums(parts, widths);
    JoinLength(parts, "|");
  }

  lemma DividerLength(widths: seq<nat>)
    requires widths != []
    ensures |Divider(widths)| == Span(widths) + |widths| - 1
  {
    var parts := Dashes(widths);
    ColumnSums(parts, widths);
    JoinLength(parts, "+");
  }

  /**
   * Every line of the table, dividers included, has the same length: the sum
   * of `width + 2` over the columns plus one separator between two columns.
   */
  lemma {:induction false} TableLineLengths(rows: seq<Row>)
    requires rows != [] && rows[0] != []
    ensures var widths := Widths(Keys(rows[0]), rows);
      forall x :: 0 <= x < |RenderTable(rows)| ==> |RenderTable(rows)[x]| == Span(widths) + |widths| - 1
  {
    WidthsFit(rows);
    LineLengthsOf(rows, Keys(rows[0]), Widths(Keys(rows[0]), rows));
  }

  // ---------------------------------------------------------------------
  // The listing around the table
  // ---------------------------------------------------------------------

  /** The lines printed for the listed activities: a notice for none, else a count, a blank line and the table. */
  function Listing(rows: seq<Row>): (r: seq<string>)
  {
    if |rows| == 0 then ["No activities found for that date range."]
    else ["Found " + NatToString(|rows|) + " activit" + (if |rows| == 1 then "y" else "ies"), ""] + RenderTable(rows)
  }

  /** The table is printed exactly when there is an activity, with one line per activity. */
  lemma {:induction false} ListingTable(rows: seq<Row>)
    ensures |rows| == 0 ==> |Listing(rows)| == 1
    ensures |rows| > 0 ==> |Listing(rows)| == |rows| + 6 && Listing(rows)[2..] == RenderTable(rows)
  {
  }
}
