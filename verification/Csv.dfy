/** `parse_notion_csv`: the CSV automaton of the Notion import, against the printing of section 2 of RFC 4180. */
module Csv {
  import opened Text

  type Row = seq<string>

  const MAX_ROWS := 10_000

  /** `rows.retain`: rows with a cell that is not only white space. */
  predicate Blank(row: Row) {
    forall i | 0 <= i < |row| :: Trim(row[i]) == []
  }

  predicate Visible(row: Row) {
    !Blank(row)
  }

  function Retain(rows: seq<Row>): seq<Row> {
    Filter(rows, Visible)
  }

  function RetainOne(row: Row): seq<Row> {
    FilterOne(row, Visible)
  }

  // ---------------------------------------------------------------- the automaton

  /** What the rest of the text adds to the rows, the open row and the open cell. */
  function Scan(src: string, rows: seq<Row>, row: Row, cell: string, quoted: bool): seq<Row>
    decreases |src|, 0
  {
    if src == [] then Close(rows, row, cell)
    else if quoted then
      if src[0] != '"' then Scan(src[1..], rows, row, cell + [src[0]], true)
      else if |src| > 1 && src[1] == '"' then Scan(src[2..], rows, row, cell + ['"'], true)
      else Scan(src[1..], rows, row, cell, false)
    else if src[0] == '"' then Scan(src[1..], rows, row, cell, true)
    else if src[0] == ',' then Scan(src[1..], rows, row + [cell], [], false)
    else if src[0] == '\n' || src[0] == '\r' then EndRow(AfterBreak(src), rows + [row + [cell]])
    else Scan(src[1..], rows, row, cell + [src[0]], false)
  }

  function EndRow(src: string, rows: seq<Row>): seq<Row>
    decreases |src|, 1
  {
    if |rows| >= MAX_ROWS then rows else Scan(src, rows, [], [], false)
  }

  /** A carriage return and the line feed after it are one break. */
  function AfterBreak(src: string): (rest: string)
    requires src != []
    ensures |rest| < |src|
  {
    if src[0] == '\r' && |src| > 1 && src[1] == '\n' then src[2..] else src[1..]
  }

  function Close(rows: seq<Row>, row: Row, cell: string): seq<Row> {
    if (cell != [] || row != []) && |rows| < MAX_ROWS then rows + [row + [cell]] else rows
  }

  function StripBom(text: string): string {
    if text != [] && text[0] as int == 0xFEFF then text[1..] else text
  }

  /** The loop over a peekable iterator; `i` is the next character. */
  method ParseCsv(text: string) returns (kept: seq<Row>)
    ensures kept == Retain(Scan(StripBom(text), [], [], [], false))
  {
    var src := StripBom(text);
    var rows: seq<Row>, row: Row, cell: string, quoted := [], [], [], false;
    var i := 0;
    var stopped := false;
    while i < |src|
      invariant 0 <= i <= |src| && !stopped
      invariant Scan(src, [], [], [], false) == Scan(src[i..], rows, row, cell, quoted)
    {
      var ch := src[i];
      ghost var rest := src[i..];
      Advance(src, i);
      i := i + 1;
      if quoted {
        if ch != '"' {
          cell := cell + [ch];
        } else if i < |src| && src[i] == '"' {
          cell := cell + ['"'];
          i := i + 1;
        } else {
          quoted := false;
        }
        continue;
      }
      if ch == '"' {
        quoted := true;
      } else if ch == ',' {
        row, cell := row + [cell], [];
      } else if ch == '\n' || ch == '\r' {
        if ch == '\r' && i < |src| && src[i] == '\n' {
          i := i + 1;
        }
        row, cell := row + [cell], [];
        rows, row := rows + [row], [];
        if |rows| >= MAX_ROWS {
          stopped := true;
          break;
        }
      } else {
        cell := cell + [ch];
      }
    }
    assert stopped || src[i..] == [];
    if !stopped && (cell != [] || row != []) && |rows| < MAX_ROWS {
      row := row + [cell];
      rows := rows + [row];
    }
    kept := Retain(rows);
  }

  lemma Advance(src: string, i: nat)
    requires i < |src|
    ensures src[i..][0] == src[i] && src[i..][1..] == src[i + 1..]
    ensures i + 1 < |src| ==> src[i..][1] == src[i + 1] && src[i..][2..] == src[i + 2..]
  {
  }

  // ---------------------------------------------------------------- printing

  /** A stretch of a cell, in quotes or bare. Section 2 of RFC 4180 prints a cell as at most one; the automaton takes any. */
  datatype Chunk = Chunk(text: string, quoted: bool)

  /** A bare stretch holds no quote, comma or line break. */
  predicate Bare(text: string) {
    '"' !in text && ',' !in text && '\r' !in text && '\n' !in text
  }

  type Cell = seq<Chunk>

  /** Two quoted stretches do not meet, for that would spell a quote. */
  ghost predicate Printable(c: Cell) {
    && (forall i | 0 <= i < |c| :: c[i].quoted || (Bare(c[i].text) && c[i].text != []))
    && (forall i | 0 < i < |c| :: !c[i - 1].quoted || !c[i].quoted)
  }

  function TextOf(c: Cell): string {
    if c == [] then [] else c[0].text + TextOf(c[1..])
  }

  type Line = seq<Cell>

  ghost predicate LineOk(line: Line) {
    forall i | 0 <= i < |line| :: Printable(line[i])
  }

  ghost predicate TableOk(table: seq<Line>) {
    forall i | 0 <= i < |table| :: LineOk(table[i])
  }

  /** What a printed line says. */
  function Texts(line: Line): (r: Row)
    ensures |r| == |line|
  {
    if line == [] then [] else [TextOf(line[0])] + Texts(line[1..])
  }

  function AllTexts(table: seq<Line>): (r: seq<Row>)
    ensures |r| == |table|
  {
    seq(|table|, i requires 0 <= i < |table| => Texts(table[i]))
  }

  /** A quote inside a cell is doubled. */
  function Escape(cell: string): string {
    if cell == [] then []
    else (if cell[0] == '"' then ['"', '"'] else [cell[0]]) + Escape(cell[1..])
  }

  function PrintChunk(k: Chunk): string {
    if k.quoted then ['"'] + Escape(k.text) + ['"'] else k.text
  }

  function PrintCell(c: Cell): string {
    if c == [] then [] else PrintChunk(c[0]) + PrintCell(c[1..])
  }

  function PrintLine(line: Line): string {
    if line == [] then []
    else if |line| == 1 then PrintCell(line[0])
    else PrintCell(line[0]) + [','] + PrintLine(line[1..])
  }

  predicate IsBreak(sep: string) {
    sep == "\n" || sep == "\r" || sep == "\r\n"
  }

  /** Lines separated by `sep`, the last one ended by it or not. */
  function Print(table: seq<Line>, sep: string, final: bool): string {
    if table == [] then []
    else PrintLine(table[0]) + (if |table| > 1 || final then sep else []) + Print(table[1..], sep, final)
  }

  // ---------------------------------------------------------------- reading a printed table

  lemma {:induction false} ScanQuoted(c: string, rest: string, rows: seq<Row>, row: Row, cell: string)
    requires rest == [] || rest[0] != '"'
    ensures Scan(Escape(c) + ['"'] + rest, rows, row, cell, true) == Scan(rest, rows, row, cell + c, false)
    decreases |c|
  {
    var src := Escape(c) + ['"'] + rest;
    if c == [] {
      assert src == ['"'] + rest && src[1..] == rest;
      assert cell + c == cell;
    } else {
      var tail := Escape(c[1..]) + ['"'] + rest;
      ScanQuoted(c[1..], rest, rows, row, cell + [c[0]]);
      assert cell + [c[0]] + c[1..] == cell + c;
      if c[0] == '"' {
        assert src == ['"', '"'] + tail && src[2..] == tail;
      } else {
        assert src == [c[0]] + tail && src[1..] == tail;
      }
    }
  }

  /** A quote that is never closed takes the rest of the text into its cell. */
  lemma {:induction false} UnclosedQuoteEnds(c: string, rows: seq<Row>, row: Row, cell: string)
    ensures Scan(['"'] + Escape(c), rows, row, cell, false) == Close(rows, row, cell + c)
  {
    assert (['"'] + Escape(c))[1..] == Escape(c);
    ScanUnclosed(c, rows, row, cell);
  }

  lemma {:induction false} ScanUnclosed(c: string, rows: seq<Row>, row: Row, cell: string)
    ensures Scan(Escape(c), rows, row, cell, true) == Close(rows, row, cell + c)
    decreases |c|
  {
    if c == [] {
      assert cell + c == cell;
    } else {
      ScanUnclosed(c[1..], rows, row, cell + [c[0]]);
      assert cell + [c[0]] + c[1..] == cell + c;
      if c[0] == '"' {
        assert Escape(c)[2..] == Escape(c[1..]);
      } else {
        assert Escape(c)[1..] == Escape(c[1..]);
      }
    }
  }

  /** Bare text goes into the open cell character by character. */
  lemma {:induction false} ScanBare(c: string, rest: string, rows: seq<Row>, row: Row, cell: string)
    requires Bare(c)
    ensures Scan(c + rest, rows, row, cell, false) == Scan(rest, rows, row, cell + c, false)
    decreases |c|
  {
    if c == [] {
      assert c + rest == rest && cell + c == cell;
    } else {
      assert (c + rest)[0] == c[0] && (c + rest)[1..] == c[1..] + rest;
      assert forall x | x in c[1..] :: x in c;
      ScanBare(c[1..], rest, rows, row, cell + [c[0]]);
      assert cell + [c[0]] + c[1..] == cell + c;
    }
  }

  lemma {:induction false} ScanChunk(k: Chunk, rest: string, rows: seq<Row>, row: Row, cell: string)
    requires (k.quoted || Bare(k.text)) && (k.quoted ==> rest == [] || rest[0] != '"')
    ensures Scan(PrintChunk(k) + rest, rows, row, cell, false) == Scan(rest, rows, row, cell + k.text, false)
  {
    if k.quoted {
      var src := PrintChunk(k) + rest;
      assert src == ['"'] + (Escape(k.text) + ['"'] + rest);
      assert src[1..] == Escape(k.text) + ['"'] + rest;
      ScanQuoted(k.text, rest, rows, row, cell);
    } else {
      ScanBare(k.text, rest, rows, row, cell);
    }
  }

  lemma {:induction false} ScanChunks(c: Cell, rest: string, rows: seq<Row>, row: Row, cell: string)
    requires Printable(c) && (rest == [] || rest[0] != '"')
    ensures Scan(PrintCell(c) + rest, rows, row, cell, false) == Scan(rest, rows, row, cell + TextOf(c), false)
    decreases |c|
  {
    hide Scan, Escape, PrintChunk, Bare;
    if c == [] {
      assert PrintCell(c) + rest == rest && cell + TextOf(c) == cell;
    } else {
      var tail := PrintCell(c[1..]) + rest;
      assert PrintCell(c) + rest == PrintChunk(c[0]) + tail;
      AfterChunk(c, rest);
      ScanChunk(c[0], tail, rows, row, cell);
      ScanChunks(c[1..], rest, rows, row, cell + c[0].text);
      Associate(cell, c[0].text, TextOf(c[1..]));
    }
  }

  /** After a quoted stretch no quote follows. */
  lemma {:induction false} AfterChunk(c: Cell, rest: string)
    requires Printable(c) && c != [] && (rest == [] || rest[0] != '"')
    ensures Printable(c[1..]) && (c[0].quoted || Bare(c[0].text))
    ensures var tail := PrintCell(c[1..]) + rest; c[0].quoted ==> tail == [] || tail[0] != '"'
  {
    hide Escape, PrintCell, Bare, Printable;
    RestOfCell(c);
    EmptyCell(c[1..]);
    if c[0].quoted && |c| > 1 {
      BareStart(c[1..]);
    }
  }

  lemma {:induction false} EmptyCell(c: Cell)
    ensures c == [] ==> PrintCell(c) == []
  {
  }

  lemma RestOfCell(c: Cell)
    requires Printable(c) && c != []
    ensures Printable(c[1..]) && (c[0].quoted || Bare(c[0].text)) && (c[0].quoted && |c| > 1 ==> !c[1].quoted)
  {
    hide Bare;
    var rest := c[1..];
    assert forall i | 0 <= i < |rest| :: rest[i] == c[i + 1];
    assert forall i | 0 < i < |rest| :: rest[i - 1] == c[i];
  }

  lemma {:induction false} BareStart(c: Cell)
    requires Printable(c) && c != [] && !c[0].quoted
    ensures PrintCell(c) != [] && PrintCell(c)[0] != '"'
  {
    assert c[0].text[0] in c[0].text;
  }

  lemma {:induction false} ScanCell(c: Cell, rest: string, rows: seq<Row>, row: Row)
    requires Printable(c) && (rest == [] || rest[0] != '"')
    ensures Scan(PrintCell(c) + rest, rows, row, [], false) == Scan(rest, rows, row, TextOf(c), false)
  {
    hide Scan;
    ScanChunks(c, rest, rows, row, []);
    Neutral(TextOf(c));
  }

  /** After a printed line the automaton holds its cells, the last one still open. */
  lemma {:induction false} ScanLine(line: Line, rest: string, rows: seq<Row>, row: Row)
    requires line != [] && LineOk(line) && (rest == [] || rest[0] == '\n' || rest[0] == '\r')
    ensures var r := Texts(line); Scan(PrintLine(line) + rest, rows, row, [], false) == Scan(rest, rows, row + r[..|r| - 1], r[|r| - 1], false)
    decreases |line|
  {
    hide Printable, Scan, PrintCell, TextOf, LineOk, Texts, PrintLine;
    var r := Texts(line);
    FirstOfLine(line);
    if |line| == 1 {
      ScanCell(line[0], rest, rows, row);
      assert row + r[..0] == row;
    } else {
      ScanCellAndComma(line[0], PrintLine(line[1..]), rest, rows, row);
      ScanLine(line[1..], rest, rows, row + [r[0]]);
      Shift(row, r);
    }
  }

  lemma {:induction false} FirstOfLine(line: Line)
    requires line != [] && LineOk(line)
    ensures Printable(line[0]) && LineOk(line[1..]) && Texts(line)[0] == TextOf(line[0]) && Texts(line[1..]) == Texts(line)[1..]
    ensures PrintLine(line) == if |line| == 1 then PrintCell(line[0]) else PrintCell(line[0]) + [','] + PrintLine(line[1..])
  {
    hide Printable, TextOf, PrintCell;
    RestOfLine(line);
  }

  lemma RestOfLine(line: Line)
    requires line != [] && LineOk(line)
    ensures LineOk(line[1..])
  {
    hide Printable;
    assert forall i | 0 <= i < |line| - 1 :: line[1..][i] == line[i + 1];
  }

  lemma Shift(row: Row, r: Row)
    requires |r| > 1
    ensures row + [r[0]] + r[1..][..|r| - 2] == row + r[..|r| - 1] && r[1..][|r| - 2] == r[|r| - 1]
  {
  }

  lemma {:induction false} ScanCellAndComma(c: Cell, cells: string, rest: string, rows: seq<Row>, row: Row)
    requires Printable(c)
    ensures Scan(PrintCell(c) + [','] + cells + rest, rows, row, [], false) == Scan(cells + rest, rows, row + [TextOf(c)], [], false)
  {
    var tail := [','] + (cells + rest);
    Regroup(PrintCell(c), cells, rest);
    ScanCell(c, tail, rows, row);
    assert tail[0] == ',' && tail[1..] == cells + rest;
  }

  lemma Regroup(a: string, b: string, c: string)
    ensures a + [','] + b + c == a + ([','] + (b + c))
  {
  }

  /** A printed row, read as the automaton reads it: an empty row becomes one empty cell. */
  ghost function AsRead(r: Row): Row {
    if r == [] then [[]] else r
  }

  lemma {:induction false} ScanBreak(sep: string, rest: string, rows: seq<Row>, row: Row, cell: string)
    requires IsBreak(sep) && (sep == "\r" ==> rest == [] || rest[0] != '\n')
    ensures Scan(sep + rest, rows, row, cell, false) == EndRow(rest, rows + [row + [cell]])
  {
    var src := sep + rest;
    assert src[0] == sep[0];
    if sep == "\r\n" {
      assert src[1] == '\n' && src[2..] == rest;
    } else {
      assert src[1..] == rest;
      assert |src| > 1 ==> src[1] == rest[0];
    }
  }

  lemma {:induction false} ScanLineAndBreak(line: Line, sep: string, rest: string, rows: seq<Row>)
    requires LineOk(line) && IsBreak(sep) && (sep == "\r" ==> rest == [] || rest[0] != '\n')
    ensures Scan(PrintLine(line) + sep + rest, rows, [], [], false) == EndRow(rest, rows + [AsRead(Texts(line))])
  {
    hide LineOk;
    var r := Texts(line);
    Associate(PrintLine(line), sep, rest);
    if line == [] {
      Neutral(sep + rest);
      ScanBreak(sep, rest, rows, [], []);
      assert [] + [[]] == AsRead(r);
    } else {
      ScanLine(line, sep + rest, rows, []);
      ScanBreak(sep, rest, rows, [] + r[..|r| - 1], r[|r| - 1]);
      assert [] + r[..|r| - 1] + [r[|r| - 1]] == r;
    }
  }

  lemma {:induction false} LineStart(line: Line)
    requires LineOk(line)
    ensures PrintLine(line) == [] || PrintLine(line)[0] != '\n'
  {
    if line != [] && line[0] != [] {
      var c := line[0];
      assert Printable(c);
      assert PrintCell(c)[0] == PrintChunk(c[0])[0];
      assert !c[0].quoted ==> c[0].text[0] in c[0].text;
    }
  }

  /** A printed table starts with a line feed only where its break does. */
  lemma {:induction false} PrintStart(table: seq<Line>, sep: string, final: bool)
    requires IsBreak(sep) && TableOk(table)
    ensures var s := Print(table, sep, final); s == [] || s[0] != '\n' || sep[0] == '\n'
  {
    hide PrintLine, LineOk;
    if table != [] {
      assert LineOk(table[0]);
      LineStart(table[0]);
      if |table| == 1 && !final {
        assert Print(table[1..], sep, final) == [];
      }
    }
  }

  lemma BlankRowsAreDropped(r: Row)
    ensures RetainOne(AsRead(r)) == RetainOne(r)
    ensures r == [] || r == [[]] ==> RetainOne(r) == []
  {
    assert Trim([]) == [];
  }

  ghost function Taken<T>(table: seq<T>, n: int): seq<T> {
    if n <= 0 then [] else if n < |table| then table[..n] else table
  }

  lemma RetainSnoc(rows: seq<Row>, r: Row)
    ensures Retain(rows + [r]) == Retain(rows) + RetainOne(r)
  {
    FilterSnoc(rows, r, Visible);
  }

  lemma RetainTaken(table: seq<Line>, n: int)
    requires table != [] && n > 0
    ensures Retain(Taken(AllTexts(table), n)) == RetainOne(Texts(table[0])) + Retain(Taken(AllTexts(table[1..]), n - 1))
  {
    var some := Taken(AllTexts(table), n);
    assert AllTexts(table)[1..] == AllTexts(table[1..]);
    assert some[0] == Texts(table[0]) && some[1..] == Taken(AllTexts(table[1..]), n - 1);
  }

  /** What reading `table` after `rows` gives. */
  ghost predicate ReadBack(table: seq<Line>, sep: string, final: bool, rows: seq<Row>) {
    Retain(Scan(Print(table, sep, final), rows, [], [], false)) == Retain(rows) + Retain(Taken(AllTexts(table), MAX_ROWS - |rows|))
  }

  /** Reading a printed table with some rows already read. */
  lemma {:induction false} ScanTable(table: seq<Line>, sep: string, final: bool, rows: seq<Row>)
    requires IsBreak(sep) && TableOk(table) && |rows| < MAX_ROWS
    ensures ReadBack(table, sep, final, rows)
    decreases |table|
  {
    hide LineOk;
    if table == [] {
      Neutral(Retain(rows));
    } else if |table| == 1 && !final {
      ScanLast(table, sep, rows);
    } else {
      var more := rows + [AsRead(Texts(table[0]))];
      if |more| < MAX_ROWS {
        ScanTable(table[1..], sep, final, more);
      }
      ScanMore(table, sep, final, rows, more);
    }
  }

  lemma ScanLast(table: seq<Line>, sep: string, rows: seq<Row>)
    requires |rows| < MAX_ROWS && |table| == 1 && TableOk(table)
    ensures ReadBack(table, sep, false, rows)
  {
    hide LineOk, PrintLine, Scan;
    var line := table[0];
    RetainTaken(table, MAX_ROWS - |rows|);
    assert table[1..] == [] && Print(table[1..], sep, false) == [];
    Neutral(PrintLine(line));
    Neutral(RetainOne(Texts(line)));
    LastRow(line, rows);
  }

  lemma ScanMore(table: seq<Line>, sep: string, final: bool, rows: seq<Row>, more: seq<Row>)
    requires IsBreak(sep) && TableOk(table) && |rows| < MAX_ROWS && table != [] && (|table| > 1 || final)
    requires more == rows + [AsRead(Texts(table[0]))]
    requires |more| < MAX_ROWS ==> ReadBack(table[1..], sep, final, more)
    ensures ReadBack(table, sep, final, rows)
  {
    hide TableOk, Texts, AllTexts, Scan, Print;
    var r, tail, n := Texts(table[0]), AllTexts(table[1..]), MAX_ROWS - |rows|;
    ScanFirst(table, sep, final, rows);
    RetainTaken(table, n);
    RetainSnoc(rows, AsRead(r));
    BlankRowsAreDropped(r);
    Associate(Retain(rows), RetainOne(r), Retain(Taken(tail, n - 1)));
    Neutral(Retain(more));
  }

  lemma {:induction false} ScanFirst(table: seq<Line>, sep: string, final: bool, rows: seq<Row>)
    requires IsBreak(sep) && TableOk(table) && table != [] && (|table| > 1 || final)
    ensures Scan(Print(table, sep, final), rows, [], [], false)
         == EndRow(Print(table[1..], sep, final), rows + [AsRead(Texts(table[0]))])
  {
    hide LineOk, Scan;
    PrintStart(table[1..], sep, final);
    ScanLineAndBreak(table[0], sep, Print(table[1..], sep, final), rows);
  }

  /** A last row without a line break is closed by the end of the text, unless it is blank anyway. */
  lemma {:induction false} LastRow(line: Line, rows: seq<Row>)
    requires |rows| < MAX_ROWS && LineOk(line)
    ensures Retain(Scan(PrintLine(line), rows, [], [], false)) == Retain(rows) + RetainOne(Texts(line))
  {
    hide LineOk, Scan, Retain, RetainOne, PrintCell, TextOf;
    var r := Texts(line);
    BlankRowsAreDropped(r);
    if line == [] {
      ScanEnd(rows, [], []);
      Neutral(Retain(rows));
    } else {
      ScanEnd(rows, r[..|r| - 1], r[|r| - 1]);
      Neutral(PrintLine(line));
      ScanLine(line, [], rows, []);
      Neutral(r[..|r| - 1]);
      LastCell(r, rows);
    }
  }

  lemma {:induction false} ScanEnd(rows: seq<Row>, row: Row, cell: string)
    ensures Scan([], rows, row, cell, false) == Close(rows, row, cell)
  {
  }

  lemma LastCell(r: Row, rows: seq<Row>)
    requires r != [] && |rows| < MAX_ROWS
    ensures Retain(Close(rows, r[..|r| - 1], r[|r| - 1])) == Retain(rows) + RetainOne(r)
  {
    var row, cell := r[..|r| - 1], r[|r| - 1];
    assert row + [cell] == r;
    if cell == [] && row == [] {
      BlankRowsAreDropped(r);
      Neutral(Retain(rows));
    } else {
      RetainSnoc(rows, r);
    }
  }

  // ---------------------------------------------------------------- rows that say something

  ghost predicate HasText(row: Row) {
    exists i, k :: 0 <= i < |row| && 0 <= k < |row[i]| && !IsWhitespace(row[i][k])
  }

  /** The rows with a character that is not white space, in order. */
  ghost function Shown(rows: seq<Row>): seq<Row> {
    if rows == [] then []
    else if HasText(rows[0]) then [rows[0]] + Shown(rows[1..])
    else Shown(rows[1..])
  }

  lemma VisibleIs(row: Row)
    ensures Visible(row) <==> HasText(row)
  {
    if Visible(row) {
      var i :| 0 <= i < |row| && Trim(row[i]) != [];
      var front, back := TrimIs(row[i]);
      var k :| 0 <= k < |row[i]| && !IsWhitespace(row[i][k]);
      assert HasText(row);
    }
    if HasText(row) {
      var i, k :| 0 <= i < |row| && 0 <= k < |row[i]| && !IsWhitespace(row[i][k]);
      var front, back := TrimIs(row[i]);
      assert Trim(row[i]) != [];
    }
  }

  /** `rows.retain` keeps exactly the rows that say something. */
  lemma {:induction false} RetainIs(rows: seq<Row>)
    ensures Retain(rows) == Shown(rows)
  {
    hide Visible, HasText;
    if rows != [] {
      VisibleIs(rows[0]);
      RetainIs(rows[1..]);
    }
  }

  const BOM: char := '\U{FEFF}'

  lemma BomIsStripped(text: string, bom: bool)
    requires bom || text == [] || text[0] != BOM
    ensures StripBom((if bom then [BOM] else []) + text) == text
  {
    Neutral(text);
    assert ([BOM] + text)[1..] == text;
  }

  /**
    * Reading back a printed table gives its first 10,000 rows without the blank ones, whatever the
    * cells hold, whatever in them is quoted and whichever line break is used, with or without a final
    * break and a byte order mark.
    */
  lemma {:induction false} PrintedTableIsReadBack(table: seq<Line>, sep: string, final: bool, bom: bool)
    requires IsBreak(sep) && TableOk(table)
    requires var s := Print(table, sep, final); bom || s == [] || s[0] != BOM
    ensures var text := (if bom then [BOM] else []) + Print(table, sep, final);
            Retain(Scan(StripBom(text), [], [], [], false)) == Shown(AllTexts(if |table| <= MAX_ROWS then table else table[..MAX_ROWS]))
  {
    hide Scan, Print, TableOk, Retain, Shown, StripBom;
    BomIsStripped(Print(table, sep, final), bom);
    ScanTable(table, sep, final, []);
    assert Retain([]) == [] by { RetainIs([]); ShownNone(); }
    Neutral(Retain(Taken(AllTexts(table), MAX_ROWS)));
    var some := if |table| <= MAX_ROWS then table else table[..MAX_ROWS];
    assert AllTexts(some) == Taken(AllTexts(table), MAX_ROWS);
    RetainIs(AllTexts(some));
  }

  lemma ShownNone()
    ensures Shown([]) == []
  {
  }
}
