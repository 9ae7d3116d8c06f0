/** `Trader.dataFileParsePrice`: read a CSV price file, find the requested column in
    its header line, and collect that column of every data line, in file order,
    into the `dataFilePrice` list.

    The file's text is a parameter (`DataFile`), taken as its sequence of lines;
    `Float.parseFloat` is the opaque partial converter `parse`. A Java exception
    that escapes the method becomes `Crashed`, with the list holding what was
    added to it before the exception. */
module Trader {
  import opened Wrappers
  import JavaSplit

  /** The data file as the method finds it: absent (`FileNotFoundException`), or
      its lines. */
  datatype DataFile = Missing | Lines(lines: seq<string>)

  /** The exceptions that leave `dataFileParsePrice` uncaught; `row` counts data
      lines from 0, the header not included. */
  datatype Crash =
    | NoHeaderLine            // `nextLine` on an empty file
    | IndexOutOfBounds(row: nat)  // the line has no field at the column's index
    | NumberFormat(row: nat)      // `Float.parseFloat` refused the field

  datatype Status = Completed | Crashed(crash: Crash)

  // ---------------------------------------------------------------------------
  // The header lookup

  /** The first position of `x` in `s`. */
  function IndexOf(s: seq<string>, x: string): (i: nat)
    requires x in s
    ensures i < |s| && s[i] == x && x !in s[..i]
  {
    if s[0] == x then 0
    else
      assert s == [s[0]] + s[1..];
      var j := IndexOf(s[1..], x);
      assert s[..j + 1] == [s[0]] + s[1..][..j];
      j + 1
  }

  /** The column `dataFileParsePrice` reads: the first header field equal to
      `name`, or column 0 when none is. */
  function ColumnIndex(header: seq<string>, name: string): (idx: nat)
    ensures name in header ==> idx < |header| && header[idx] == name && name !in header[..idx]
    ensures name !in header ==> idx == 0
  {
    if name in header then IndexOf(header, name) else 0
  }

  /** The header loop of `dataFileParsePrice`: scan the fields left to right and
      stop at the first one equal to `name`. */
  method FindColumn(header: seq<string>, name: string) returns (columnIndexPrice: nat)
    ensures columnIndexPrice == ColumnIndex(header, name)
  {
    columnIndexPrice := 0;
    var i := 0;
    while i < |header|
      invariant 0 <= i <= |header|
      invariant name !in header[..i]
      invariant columnIndexPrice == 0
    {
      if header[i] == name {
        columnIndexPrice := i;
        FirstMatch(header, name, i);
        break;
      }
      assert header[..i + 1] == header[..i] + [header[i]];
      i := i + 1;
    }
    if i == |header| {
      assert header[..i] == header;
    }
  }

  lemma FirstMatch(s: seq<string>, x: string, i: nat)
    requires i < |s| && s[i] == x && x !in s[..i]
    ensures x in s && IndexOf(s, x) == i
  {
  }

  // ---------------------------------------------------------------------------
  // The data lines

  /** The value of one data line (number `row`): its field at `idx`, converted. */
  function Cell(line: string, idx: nat, row: nat, parse: string -> Option<F32>): (r: Result<F32, Crash>)
    ensures r.Ok? <==> idx < |JavaSplit.Split(line)| && parse(JavaSplit.Split(line)[idx]).Some?
    ensures r.Ok? ==> r.value == parse(JavaSplit.Split(line)[idx]).value
    ensures idx >= |JavaSplit.Split(line)| ==> r == Err(IndexOutOfBounds(row))
    ensures r.Err? && idx < |JavaSplit.Split(line)| ==> r == Err(NumberFormat(row))
  {
    var fields := JavaSplit.Split(line);
    if idx < |fields| then
      match parse(fields[idx])
      case Some(v) => Ok(v)
      case None => Err(NumberFormat(row))
    else
      Err(IndexOutOfBounds(row))
  }

  /** What the row loop has produced after reading `rows`: the values added so far,
      and the exception that stopped it, if one did. */
  datatype Extraction = Extraction(values: seq<F32>, crash: Option<Crash>)

  /** The row loop over `rows`, line by line; the first line that fails stops it. */
  function Extract(rows: seq<string>, idx: nat, parse: string -> Option<F32>): Extraction
  {
    if rows == [] then Extraction([], None)
    else
      var prev := Extract(rows[..|rows| - 1], idx, parse);
      if prev.crash.Some? then prev
      else
        match Cell(rows[|rows| - 1], idx, |rows| - 1, parse)
        case Ok(v) => Extraction(prev.values + [v], None)
        case Err(c) => Extraction(prev.values, Some(c))
  }

  /** The list holds one value per data line read, in file order, each the field at
      `idx` of its line; it is complete exactly when every line has that field and
      it converts, and otherwise the exception names the first line that fails. */
  lemma {:induction false} ExtractMeaning(rows: seq<string>, idx: nat, parse: string -> Option<F32>)
    ensures var e := Extract(rows, idx, parse);
            && |e.values| <= |rows|
            && (forall j :: 0 <= j < |e.values| ==> Cell(rows[j], idx, j, parse) == Ok(e.values[j]))
            && (e.crash.None? <==> |e.values| == |rows|)
            && (e.crash.Some? ==> Cell(rows[|e.values|], idx, |e.values|, parse) == Err(e.crash.value))
  {
    if rows != [] {
      var init := rows[..|rows| - 1];
      ExtractMeaning(init, idx, parse);
      assert forall j :: 0 <= j < |init| ==> init[j] == rows[j];
    }
  }

  /** Once a line has failed, the lines after it change nothing. */
  lemma {:induction false} ExtractStops(rows: seq<string>, k: nat, idx: nat, parse: string -> Option<F32>)
    requires k <= |rows| && Extract(rows[..k], idx, parse).crash.Some?
    ensures Extract(rows, idx, parse) == Extract(rows[..k], idx, parse)
  {
    if k < |rows| {
      var init := rows[..|rows| - 1];
      assert init[..k] == rows[..k];
      ExtractStops(init, k, idx, parse);
      assert Extract(init, idx, parse).crash.Some?;
    } else {
      assert rows[..k] == rows;
    }
  }

  /** A file whose every data line has a valid number in the column gives exactly
      the list of those numbers. */
  lemma {:induction false} ExtractAllValid(rows: seq<string>, idx: nat, parse: string -> Option<F32>)
    requires forall j :: 0 <= j < |rows| ==> Cell(rows[j], idx, j, parse).Ok?
    ensures Extract(rows, idx, parse).crash.None?
    ensures |Extract(rows, idx, parse).values| == |rows|
    ensures forall j :: 0 <= j < |rows| ==> Extract(rows, idx, parse).values[j] == Cell(rows[j], idx, j, parse).value
  {
    ExtractMeaning(rows, idx, parse);
  }

  // ---------------------------------------------------------------------------
  // The class

  class Trader {
    const dataFilePath: string
    const threshold: int
    /** The parsed prices; `None` while the Java field is still `null`. */
    var dataFilePrice: Option<seq<F32>>

    constructor (dataFilePath: string, threshold: int)
      ensures this.dataFilePath == dataFilePath && this.threshold == threshold
      ensures dataFilePrice == None
    {
      this.dataFilePath := dataFilePath;
      this.threshold := threshold;
      dataFilePrice := None;
    }

    /** `dataFileParsePrice(columnPriceName)`. The list is replaced by a fresh one
        first, so nothing of an earlier call survives; a missing file is caught and
        leaves it empty; otherwise it holds the chosen column of the data lines up
        to the first one that throws. */
    method DataFileParsePrice(columnPriceName: string, file: DataFile, parse: string -> Option<F32>)
      returns (status: Status)
      modifies this
      ensures file.Missing? ==> status == Completed && dataFilePrice == Some([])
      ensures file == Lines([]) ==> status == Crashed(NoHeaderLine) && dataFilePrice == Some([])
      ensures file.Lines? && file.lines != [] ==>
                var e := Extract(file.lines[1..], ColumnIndex(JavaSplit.Split(file.lines[0]), columnPriceName), parse);
                && dataFilePrice == Some(e.values)
                && status == (if e.crash.None? then Completed else Crashed(e.crash.value))
    {
      dataFilePrice := Some([]);
      if file.Missing? {
        return Completed;
      }
      var lines := file.lines;
      if |lines| == 0 {
        return Crashed(NoHeaderLine);
      }
      var columnIndexPrice := FindColumn(JavaSplit.Split(lines[0]), columnPriceName);
      var rows := lines[1..];
      var values: seq<F32> := [];
      var currentRow := 0;
      while currentRow < |rows|
        invariant 0 <= currentRow <= |rows|
        invariant Extract(rows[..currentRow], columnIndexPrice, parse) == Extraction(values, None)
        invariant dataFilePrice == Some(values)
        invariant |values| == currentRow
      {
        var fields := JavaSplit.Split(rows[currentRow]);
        assert rows[..currentRow + 1][..currentRow] == rows[..currentRow];
        if columnIndexPrice >= |fields| {
          ExtractStops(rows, currentRow + 1, columnIndexPrice, parse);
          return Crashed(IndexOutOfBounds(currentRow));
        }
        var price := parse(fields[columnIndexPrice]);
        if price.None? {
          ExtractStops(rows, currentRow + 1, columnIndexPrice, parse);
          return Crashed(NumberFormat(currentRow));
        }
        values := values + [price.value];
        dataFilePrice := Some(values);
        currentRow := currentRow + 1;
      }
      assert rows[..currentRow] == rows;
      return Completed;
    }
  }
}
