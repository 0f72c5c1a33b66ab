/**
 * The tab-separated report parser (`tsv_to_list` in tap_appstore/__init__.py
 * and `Stream.parse_api_response` in tap_appstore/streams.py, which share
 * one algorithm): the first line gives the normalised column names, every
 * later non-empty line becomes one mapping from column name to trimmed cell.
 */
module Tsv {
  import opened Text

  /** One report line: normalised column name to trimmed cell text. */
  type Row = map<string, string>

  function Min(a: nat, b: nat): nat {
    if a <= b then a else b
  }

  /**
   * The column names: one per tab-separated cell of the first line, as long
   * as its cell, with no upper-case ASCII letter, space or hyphen left.
   */
  function Header(line: string): (h: seq<string>)
    ensures |h| == |Split(line, '\t')|
    ensures forall i :: 0 <= i < |h| ==> |h[i]| == |Split(line, '\t')[i]| && IsNormalKey(h[i])
  {
    var cells := Split(line, '\t');
    seq(|cells|, i requires 0 <= i < |cells| => NormalizeKey(cells[i]))
  }

  /**
   * The mapping filled from the first `n` cells, in column order, so that a
   * later column overwrites an earlier one of the same name.
   */
  function RowUpTo(header: seq<string>, cells: seq<string>, n: nat): Row
    requires n <= |header| && n <= |cells|
  {
    if n == 0 then map[] else RowUpTo(header, cells, n - 1)[header[n - 1] := Strip(cells[n - 1])]
  }

  /** Its keys are exactly the first `n` column names. */
  lemma {:induction false} RowUpToKeys(header: seq<string>, cells: seq<string>, n: nat)
    requires n <= |header| && n <= |cells|
    ensures forall k :: k in RowUpTo(header, cells, n) <==> k in header[..n]
  {
    if n > 0 {
      RowUpToKeys(header, cells, n - 1);
      assert header[..n] == header[..n - 1] + [header[n - 1]];
    }
  }

  /** Each key holds the trimmed cell of the last column of that name. */
  lemma {:induction false} RowUpToValues(header: seq<string>, cells: seq<string>, n: nat)
    requires n <= |header| && n <= |cells|
    ensures forall i :: 0 <= i < n && header[i] !in header[i + 1..n] ==>
      header[i] in RowUpTo(header, cells, n) && RowUpTo(header, cells, n)[header[i]] == Strip(cells[i])
  {
    if n > 0 {
      RowUpToValues(header, cells, n - 1);
      var before, r := RowUpTo(header, cells, n - 1), RowUpTo(header, cells, n);
      forall i | 0 <= i < n && header[i] !in header[i + 1..n]
        ensures header[i] in r && r[header[i]] == Strip(cells[i])
      {
        if i < n - 1 {
          assert header[i + 1..n] == header[i + 1..n - 1] + [header[n - 1]];
          assert header[i] != header[n - 1];
          assert header[i] in before && r[header[i]] == before[header[i]];
        }
      }
    }
  }

  /** Every value is already trimmed. */
  lemma {:induction false} RowUpToTrimmed(header: seq<string>, cells: seq<string>, n: nat)
    requires n <= |header| && n <= |cells|
    ensures forall k :: k in RowUpTo(header, cells, n) ==> Strip(RowUpTo(header, cells, n)[k]) == RowUpTo(header, cells, n)[k]
  {
    if n > 0 {
      RowUpToTrimmed(header, cells, n - 1);
      var before, r := RowUpTo(header, cells, n - 1), RowUpTo(header, cells, n);
      forall k | k in r ensures Strip(r[k]) == r[k] {
        if k == header[n - 1] {
          StripIdempotent(cells[n - 1]);
        } else {
          assert r[k] == before[k];
        }
      }
    }
  }

  /** One data line's mapping: only as many columns as both the header and the line have. */
  function RowOf(header: seq<string>, cells: seq<string>): Row {
    RowUpTo(header, cells, Min(|header|, |cells|))
  }

  /** What one data line contributes: nothing when it is empty, else its mapping. */
  function LineRows(header: seq<string>, line: string): seq<Row> {
    if |line| == 0 then [] else [RowOf(header, Split(line, '\t'))]
  }

  /** The mappings of the data lines, in order. */
  function DataRows(header: seq<string>, lines: seq<string>): seq<Row>
    decreases |lines|
  {
    if lines == [] then []
    else DataRows(header, lines[..|lines| - 1]) + LineRows(header, lines[|lines| - 1])
  }

  /** The whole report text as its sequence of mappings. */
  function Parse(text: string): seq<Row> {
    var lines := Split(text, '\n');
    DataRows(Header(lines[0]), lines[1..])
  }

  /** The non-empty lines, in order. */
  function NonEmpty(lines: seq<string>): (r: seq<string>)
    ensures forall k :: 0 <= k < |r| ==> r[k] != ""
  {
    if lines == [] then []
    else NonEmpty(lines[..|lines| - 1]) + (if lines[|lines| - 1] == "" then [] else [lines[|lines| - 1]])
  }

  /** Zero-length lines contribute nothing; every other line exactly one mapping, in input order. */
  lemma {:induction false} DataRowsOfNonEmpty(header: seq<string>, lines: seq<string>)
    ensures |DataRows(header, lines)| == |NonEmpty(lines)|
    ensures forall k :: 0 <= k < |NonEmpty(lines)| ==>
      DataRows(header, lines)[k] == RowOf(header, Split(NonEmpty(lines)[k], '\t'))
    decreases |lines|
  {
    if lines != [] {
      DataRowsOfNonEmpty(header, lines[..|lines| - 1]);
    }
  }

  /** Parsing: one mapping per non-empty line after the header, in order. */
  lemma ParseRows(text: string)
    ensures var lines := Split(text, '\n');
      var data := NonEmpty(lines[1..]);
      && |Parse(text)| == |data|
      && forall k :: 0 <= k < |data| ==>
           Parse(text)[k] == RowOf(Header(lines[0]), Split(data[k], '\t'))
  {
    var lines := Split(text, '\n');
    DataRowsOfNonEmpty(Header(lines[0]), lines[1..]);
  }

  /** A line without separators is a single piece. */
  lemma {:induction false} SplitWhole(s: string, sep: char)
    requires sep !in s
    ensures Split(s, sep) == [s]
  {
    if s != [] {
      SplitWhole(s[1..], sep);
      SplitCons(s[0], s[1..], sep);
      assert s == [s[0]] + s[1..];
    }
  }

  /** Appending one more line appends exactly that line's mapping, if any. */
  lemma ParseAppendLine(text: string, line: string)
    requires '\n' !in line
    ensures Parse(text + "\n" + line) == Parse(text) + LineRows(Header(Split(text, '\n')[0]), line)
  {
    SplitAppend(text, '\n', line);
    SplitWhole(line, '\n');
    var lines := Split(text, '\n');
    var more := Split(text + "\n" + line, '\n');
    assert more == lines + [line];
    assert more[0] == lines[0];
    assert more[1..] == lines[1..] + [line];
    assert (lines[1..] + [line])[..|lines| - 1] == lines[1..];
  }

  /** A trailing blank line produces no extra mapping. */
  lemma ParseTrailingNewline(text: string)
    ensures Parse(text + "\n") == Parse(text)
  {
    ParseAppendLine(text, "");
    assert text + "\n" + "" == text + "\n";
  }

  /** Every key of every data mapping is a column name, and every value is trimmed. */
  lemma {:induction false} DataRowsShape(header: seq<string>, lines: seq<string>)
    ensures forall r, k :: r in DataRows(header, lines) && k in r ==> k in header && Strip(r[k]) == r[k]
    decreases |lines|
  {
    if lines != [] {
      var init, line := lines[..|lines| - 1], lines[|lines| - 1];
      DataRowsShape(header, init);
      if |line| != 0 {
        var cells := Split(line, '\t');
        var n := Min(|header|, |cells|);
        RowUpToKeys(header, cells, n);
        RowUpToTrimmed(header, cells, n);
        assert forall k :: k in header[..n] ==> k in header;
      }
    }
  }

  /** Every key of every mapping is a normalised column name. */
  lemma ParseKeysNormal(text: string)
    ensures forall r, k :: r in Parse(text) && k in r ==> IsNormalKey(k)
  {
    var lines := Split(text, '\n');
    var header := Header(lines[0]);
    DataRowsShape(header, lines[1..]);
  }

  /** Every value of every mapping is a trimmed cell. */
  lemma ParseValuesTrimmed(text: string)
    ensures forall r, k :: r in Parse(text) && k in r ==> Strip(r[k]) == r[k]
  {
    var lines := Split(text, '\n');
    DataRowsShape(Header(lines[0]), lines[1..]);
  }

  /**
   * A row shorter than the header has only the first `|cells|` column names;
   * cells beyond the header are ignored.
   */
  lemma RowWidth(header: seq<string>, cells: seq<string>, extra: seq<string>)
    ensures |cells| <= |header| ==> forall k :: k in RowOf(header, cells) <==> k in header[..|cells|]
    ensures |header| <= |cells| ==> RowOf(header, cells + extra) == RowOf(header, cells)
  {
    if |cells| <= |header| {
      RowUpToKeys(header, cells, |cells|);
    }
    if |header| <= |cells| {
      RowUpToPrefix(header, cells, cells + extra, |header|);
    }
  }

  lemma {:induction false} RowUpToPrefix(header: seq<string>, cells: seq<string>, more: seq<string>, n: nat)
    requires n <= |header| && n <= |cells| && n <= |more|
    requires cells[..n] == more[..n]
    ensures RowUpTo(header, cells, n) == RowUpTo(header, more, n)
  {
    if n > 0 {
      assert cells[n - 1] == cells[..n][n - 1] == more[..n][n - 1] == more[n - 1];
      assert cells[..n - 1] == cells[..n][..n - 1];
      assert more[..n - 1] == more[..n][..n - 1];
      RowUpToPrefix(header, cells, more, n - 1);
    }
  }

  /** With distinct column names, column `i` holds the trimmed cell `i`. */
  lemma DistinctColumns(header: seq<string>, cells: seq<string>, i: nat)
    requires forall a, b :: 0 <= a < b < |header| ==> header[a] != header[b]
    requires i < |header| && i < |cells|
    ensures header[i] in RowOf(header, cells) && RowOf(header, cells)[header[i]] == Strip(cells[i])
  {
    var n := Min(|header|, |cells|);
    RowUpToValues(header, cells, n);
    assert header[i] !in header[i + 1..n];
  }

  lemma ExampleLines()
    ensures Split("A\tB\n1\t2\n3", '\n') == ["A\tB", "1\t2", "3"]
  {
    ExampleHeadLines();
    assert "A\tB\n1\t2\n3" == "A\tB\n1\t2" + "\n" + "3";
    SplitAppend("A\tB\n1\t2", '\n', "3");
    SplitWhole("3", '\n');
  }

  lemma ExampleHeadLines()
    ensures Split("A\tB\n1\t2", '\n') == ["A\tB", "1\t2"]
  {
    assert "A\tB\n1\t2" == "A\tB" + "\n" + "1\t2";
    SplitAppend("A\tB", '\n', "1\t2");
    SplitWhole("A\tB", '\n');
    SplitWhole("1\t2", '\n');
  }

  lemma ExampleCells()
    ensures Split("A\tB", '\t') == ["A", "B"]
    ensures Split("1\t2", '\t') == ["1", "2"]
    ensures Split("3", '\t') == ["3"]
  {
    SplitPair("A", "B");
    SplitPair("1", "2");
    SplitWhole("3", '\t');
  }

  /** Two cells without tabs joined by one. */
  lemma SplitPair(a: string, b: string)
    requires '\t' !in a && '\t' !in b
    ensures Split(a + "\t" + b, '\t') == [a, b]
  {
    SplitAppend(a, '\t', b);
    SplitWhole(a, '\t');
    SplitWhole(b, '\t');
  }

  lemma ExampleRows()
    ensures Header("A\tB") == ["a", "b"]
    ensures DataRows(["a", "b"], ["1\t2", "3"]) == [map["a" := "1", "b" := "2"], map["a" := "3"]]
  {
    ExampleCells();
    assert NormalizeKey("A") == "a";
    assert NormalizeKey("B") == "b";
    ExampleFullRow();
    ExampleShortRow();
    assert ["1\t2", "3"][..1] == ["1\t2"];
    assert ["1\t2"][..0] == [];
  }

  lemma ExampleFullRow()
    ensures RowOf(["a", "b"], ["1", "2"]) == map["a" := "1", "b" := "2"]
  {
    assert Strip("1") == "1" && Strip("2") == "2";
    assert RowUpTo(["a", "b"], ["1", "2"], 1) == map["a" := "1"];
  }

  lemma ExampleShortRow()
    ensures RowOf(["a", "b"], ["3"]) == map["a" := "3"]
  {
    assert Strip("3") == "3";
    assert RowUpTo(["a", "b"], ["3"], 1) == map["a" := "3"];
    assert RowOf(["a", "b"], ["3"]) == RowUpTo(["a", "b"], ["3"], 1);
  }

  /**
   * The tabular text `A\tB`, `1\t2`, `3`: two mappings, the short second row
   * without the second key.
   */
  lemma ParseShortRowExample()
    ensures Parse("A\tB\n1\t2\n3") == [map["a" := "1", "b" := "2"], map["a" := "3"]]
  {
    ExampleLines();
    ExampleRows();
    var lines := Split("A\tB\n1\t2\n3", '\n');
    assert lines[1..] == ["1\t2", "3"];
  }

  lemma DataRowsStep(header: seq<string>, lines: seq<string>, n: nat)
    requires 1 <= n < |lines|
    ensures DataRows(header, lines[1..n + 1]) == DataRows(header, lines[1..n]) + LineRows(header, lines[n])
  {
    assert lines[1..n + 1][..n - 1] == lines[1..n];
  }

  /** The inner loop: fill one line's mapping column by column. */
  method FillRow(header: seq<string>, cols: seq<string>) returns (lineObj: Row)
    ensures lineObj == RowOf(header, cols)
  {
    lineObj := map[];
    var i := 0;
    while i < |header|
      invariant 0 <= i <= |header|
      invariant lineObj == RowUpTo(header, cols, Min(i, |cols|))
    {
      if i < |cols| {
        assert Min(i + 1, |cols|) == i + 1;
        lineObj := lineObj[header[i] := Strip(cols[i])];
      } else {
        assert Min(i + 1, |cols|) == Min(i, |cols|);
      }
      i := i + 1;
    }
  }

  /**
   * The loop of `tsv_to_list` / `parse_api_response`: split into lines, take
   * the header from the first, skip zero-length lines, and fill one mapping
   * per line column by column.
   */
  method ParseReport(text: string) returns (data: seq<Row>)
    ensures data == Parse(text)
  {
    var lines := Split(text, '\n');
    var header := Header(lines[0]);
    data := [];
    var n := 1;
    while n < |lines|
      invariant 1 <= n <= |lines|
      invariant data == DataRows(header, lines[1..n])
    {
      var line := lines[n];
      DataRowsStep(header, lines, n);
      if |line| != 0 {
        var lineObj := FillRow(header, Split(line, '\t'));
        data := data + [lineObj];
      }
      n := n + 1;
    }
    assert lines[1..n] == lines[1..];
  }
}
