/**
 * The delimited record reader: a forward iterator over a text file that
 * yields one fixed-arity tuple of ints per physical line.
 *
 * The file is a `Stream` over its text (so `std::getline(ifs, line)` is a
 * read up to '\n'), the tuple is a `seq<int>` of the reader's arity, and
 * the iterator is a class holding the file stream, the tuple and the
 * finish flag, exactly the state `load_line` updates.
 */
module Csv {
  import opened Wrappers
  import opened Paths
  import opened TextStream

  /** The files the reader can open, by path. */
  type FileSystem = map<Path, string>

  /** `std::ifstream::open` succeeds on an existing file; never on the empty path. */
  predicate Openable(fs: FileSystem, p: Path)
  {
    p != "" && p in fs
  }

  /** The message of the `runtime_error` thrown when the file cannot be opened. */
  const OpenError: string := "Could not open csv file with provided path"

  /** The value-initialised tuple of `n` ints. */
  function Zeros(n: nat): (z: seq<int>)
    ensures |z| == n && forall i :: 0 <= i < n ==> z[i] == 0
  {
    seq(n, _ => 0)
  }

  /**
   * The first `k` fields of the tuple after one line is extracted into it:
   * field i is `>>` applied to the i-th `d`-separated token, into the
   * value the tuple held before.
   */
  function ParseFields(l: string, d: char, prev: seq<int>, k: nat): (r: seq<int>)
    requires k <= |prev|
    ensures |r| == k
  {
    if k == 0 then [] else ParseFields(l, d, prev, k - 1) + [ParseInt(Field(l, d, k - 1), prev[k - 1])]
  }

  /** The tuple after the fields of one line are extracted into it. */
  function ParseLine(l: string, d: char, prev: seq<int>): (r: seq<int>)
    ensures |r| == |prev|
  {
    ParseFields(l, d, prev, |prev|)
  }

  lemma {:induction false} ParseFieldsAt(l: string, d: char, prev: seq<int>, k: nat, i: nat)
    requires i < k <= |prev|
    ensures ParseFields(l, d, prev, k)[i] == ParseInt(Field(l, d, i), prev[i])
  {
    if i < k - 1 {
      ParseFieldsAt(l, d, prev, k - 1, i);
    }
  }

  /** Field i of the new tuple comes from the i-th token of the line and from nothing else. */
  lemma ParseLineAt(l: string, d: char, prev: seq<int>, i: nat)
    requires i < |prev|
    ensures ParseLine(l, d, prev)[i] == ParseInt(Field(l, d, i), prev[i])
  {
    ParseFieldsAt(l, d, prev, |prev|, i);
  }

  /**
   * The tuple is reused from line to line: a field whose token is missing,
   * empty or blank keeps the previous line's value; any other field gets a
   * value in the int range.
   */
  lemma ParseLineFields(l: string, d: char, prev: seq<int>, i: nat)
    requires i < |prev|
    ensures Blank(Field(l, d, i)) ==> ParseLine(l, d, prev)[i] == prev[i]
    ensures !Blank(Field(l, d, i)) ==> IntMin <= ParseLine(l, d, prev)[i] <= IntMax
    ensures i >= |Positions(l, d)| + 1 ==> ParseLine(l, d, prev)[i] == prev[i]
  {
    ParseLineAt(l, d, prev, i);
  }

  /** The state `load_line` works on: the file stream, the tuple and the finish flag. */
  datatype Cursor = Cursor(file: Stream, line: seq<int>, finish: bool)

  /** A bound on the reads left before the cursor is finished. */
  function Measure(c: Cursor): nat
  {
    if c.finish then 0
    else if c.file.Exhausted? then 1
    else 2 + (if c.file.pos <= |c.file.text| then |c.file.text| - c.file.pos else 0)
  }

  /**
   * `load_line`: end of file is checked before every field, the physical
   * line is read before field 0, and each field is parsed from the next
   * token of that line.  So the cursor finishes when it was already at end
   * of file, or, with two fields or more, when this very read hit it.
   */
  function Load(c: Cursor, d: char): (r: Cursor)
    ensures |r.line| == |c.line|
    ensures c.finish || c.file.Exhausted? ==> r.finish
    ensures !c.finish ==> Measure(r) < Measure(c)
  {
    var t := GetToken(c.file, '\n');
    Cursor(t.1, ParseLine(t.0, d, c.line), c.finish || c.file.Exhausted? || (|c.line| >= 2 && t.1.Exhausted?))
  }

  /** The three parts of the cursor `load_line` leaves. */
  lemma LoadParts(c: Cursor, d: char, l: string, f: Stream)
    requires GetToken(c.file, '\n') == (l, f)
    ensures Load(c, d).file == f && Load(c, d).line == ParseLine(l, d, c.line)
    ensures Load(c, d).finish == (c.finish || c.file.Exhausted? || (|c.line| >= 2 && f.Exhausted?))
  {
  }

  /** `operator==`: finish flags equal, or tuples equal. */
  predicate Same(a: Cursor, b: Cursor)
  {
    a.finish == b.finish || a.line == b.line
  }

  /** The end iterator: finished, with a value-initialised tuple. */
  function EndCursor(n: nat): Cursor
  {
    Cursor(Exhausted, Zeros(n), true)
  }

  /** The iterator compares equal to the end iterator exactly when it is finished or its tuple is all zero. */
  function AtEnd(c: Cursor): (b: bool)
    ensures b <==> c.finish || c.line == Zeros(|c.line|)
  {
    Same(c, EndCursor(|c.line|))
  }

  /** `begin()`: open the file and load the first line into a zero tuple. */
  function Start(text: string, d: char, n: nat): Cursor
  {
    Load(Cursor(Good(text, 0), Zeros(n), false), d)
  }

  /**
   * The tuples a range-for over the reader yields from cursor `c`: the
   * current tuple while the iterator differs from `end()`, then the next.
   * Each has the reader's arity, and none is all zero.
   */
  function Records(c: Cursor, d: char): (rs: seq<seq<int>>)
    ensures forall k :: 0 <= k < |rs| ==> |rs[k]| == |c.line| && rs[k] != Zeros(|c.line|)
    ensures c.finish ==> rs == []
    decreases Measure(c)
  {
    if AtEnd(c) then [] else [c.line] + Records(Load(c, d), d)
  }

  /** One turn of the range-for: the current tuple is yielded unless the iterator equals `end()`. */
  lemma RecordsStep(c: Cursor, d: char)
    ensures AtEnd(c) ==> Records(c, d) == []
    ensures !AtEnd(c) ==> Records(c, d) == [c.line] + Records(Load(c, d), d)
  {
  }

  // ---------------------------------------------------------------------
  // What a whole file yields.

  /** The '\n'-terminated lines of `text` from `pos` on; a final line with no '\n' is not among them. */
  function CompleteLines(text: string, pos: nat): (ls: seq<string>)
    decreases |text| - pos
  {
    match NextDelim(text, pos, '\n')
    case None => []
    case Some(j) => [text[pos..j]] + CompleteLines(text, j + 1)
  }

  /** Every line `getline` returns from `pos` on, the text after the last '\n' (possibly empty) included. */
  function AllLines(text: string, pos: nat): (ls: seq<string>)
    requires pos <= |text|
    ensures |ls| >= 1
    decreases |text| - pos
  {
    match NextDelim(text, pos, '\n')
    case None => [text[pos..]]
    case Some(j) => [text[pos..j]] + AllLines(text, j + 1)
  }

  lemma CompleteLinesStep(text: string, pos: nat, j: nat)
    requires NextDelim(text, pos, '\n') == Some(j)
    ensures CompleteLines(text, pos) == [text[pos..j]] + CompleteLines(text, j + 1)
  {
  }

  lemma AllLinesStep(text: string, pos: nat, j: nat)
    requires pos <= |text| && NextDelim(text, pos, '\n') == Some(j)
    ensures AllLines(text, pos) == [text[pos..j]] + AllLines(text, j + 1)
  {
  }

  /** Each line's fields extracted into the tuple the previous line left. */
  function Scan(lines: seq<string>, d: char, prev: seq<int>): (rs: seq<seq<int>>)
  {
    if lines == [] then []
    else
      var r := ParseLine(lines[0], d, prev);
      [r] + Scan(lines[1..], d, r)
  }

  /** The longest prefix of `rs` holding no all-zero tuple of length `n`. */
  function TakeNonZero(rs: seq<seq<int>>, n: nat): (ts: seq<seq<int>>)
    ensures |ts| <= |rs| && ts == rs[..|ts|]
    ensures forall k :: 0 <= k < |ts| ==> ts[k] != Zeros(n)
    ensures |ts| < |rs| ==> rs[|ts|] == Zeros(n)
  {
    if rs == [] || rs[0] == Zeros(n) then [] else [rs[0]] + TakeNonZero(rs[1..], n)
  }

  /** Reading a line that ends in '\n' leaves the file open at the next line. */
  lemma LoadLineEnding(text: string, pos: nat, j: nat, d: char, prev: seq<int>)
    requires NextDelim(text, pos, '\n') == Some(j)
    ensures Load(Cursor(Good(text, pos), prev, false), d)
         == Cursor(Good(text, j + 1), ParseLine(text[pos..j], d, prev), false)
  {
    ReadUpTo(text, pos, '\n', j);
  }

  /** Reading the text after the last '\n' reaches end of file, which finishes a reader of two fields or more. */
  lemma LoadLastLine(text: string, pos: nat, d: char, prev: seq<int>)
    requires pos <= |text| && NextDelim(text, pos, '\n').None?
    ensures Load(Cursor(Good(text, pos), prev, false), d)
         == Cursor(Exhausted, ParseLine(text[pos..], d, prev), |prev| >= 2)
  {
    ReadToEnd(text, pos, '\n');
  }

  /** A line ending in '\n' is yielded, and reading goes on from the next line, unless its tuple is all zero. */
  lemma RecordsLineStep(text: string, pos: nat, j: nat, d: char, prev: seq<int>)
    requires NextDelim(text, pos, '\n') == Some(j)
    ensures Records(Load(Cursor(Good(text, pos), prev, false), d), d)
         == (var r := ParseLine(text[pos..j], d, prev);
             if r == Zeros(|prev|) then [] else [r] + Records(Load(Cursor(Good(text, j + 1), r, false), d), d))
  {
    LoadLineEnding(text, pos, j, d, prev);
    RecordsStep(Load(Cursor(Good(text, pos), prev, false), d), d);
  }

  /** One line of the scan: its tuple is kept unless it is all zero. */
  lemma TakeScanStep(l: string, ls: seq<string>, d: char, prev: seq<int>)
    ensures TakeNonZero(Scan([l] + ls, d, prev), |prev|)
         == (var r := ParseLine(l, d, prev);
             if r == Zeros(|prev|) then [] else [r] + TakeNonZero(Scan(ls, d, r), |prev|))
  {
    assert ([l] + ls)[1..] == ls;
  }

  /** With two fields or more, once no '\n' is left nothing more is yielded. */
  lemma RecordsAtEndOfFile(text: string, pos: nat, d: char, prev: seq<int>)
    requires |prev| >= 2 && NextDelim(text, pos, '\n').None?
    ensures Records(Load(Cursor(Good(text, pos), prev, false), d), d) == []
    ensures CompleteLines(text, pos) == []
  {
    if pos <= |text| {
      LoadLastLine(text, pos, d, prev);
    }
    RecordsStep(Load(Cursor(Good(text, pos), prev, false), d), d);
  }

  /**
   * With two fields or more, the read that reaches end of file finishes
   * the iterator before it is compared with `end()`: only complete lines
   * are yielded, and only up to the first that leaves an all-zero tuple.
   */
  lemma {:induction false} RecordsFromLines(text: string, pos: nat, d: char, prev: seq<int>)
    requires |prev| >= 2
    ensures Records(Load(Cursor(Good(text, pos), prev, false), d), d)
         == TakeNonZero(Scan(CompleteLines(text, pos), d, prev), |prev|)
    decreases |text| - pos
  {
    var next := NextDelim(text, pos, '\n');
    if next.None? {
      RecordsAtEndOfFile(text, pos, d, prev);
    } else {
      var j := next.value;
      var r := ParseLine(text[pos..j], d, prev);
      var rest := TakeNonZero(Scan(CompleteLines(text, j + 1), d, r), |prev|);
      assert Records(Load(Cursor(Good(text, pos), prev, false), d), d)
          == if r == Zeros(|prev|) then [] else [r] + rest by {
        RecordsLineStep(text, pos, j, d, prev);
        RecordsFromLines(text, j + 1, d, r);
      }
      assert TakeNonZero(Scan(CompleteLines(text, pos), d, prev), |prev|)
          == if r == Zeros(|prev|) then [] else [r] + rest by {
        CompleteLinesStep(text, pos, j);
        TakeScanStep(text[pos..j], CompleteLines(text, j + 1), d, prev);
      }
    }
  }

  lemma AllLinesLast(text: string, pos: nat)
    requires pos <= |text| && NextDelim(text, pos, '\n').None?
    ensures AllLines(text, pos) == [text[pos..]]
  {
  }

  /** A single-field reader yields the text after the last '\n' unless it parses to zero, and then stops. */
  lemma RecordsOfLastLine(text: string, pos: nat, d: char, prev: seq<int>)
    requires |prev| == 1 && pos <= |text| && NextDelim(text, pos, '\n').None?
    ensures Records(Load(Cursor(Good(text, pos), prev, false), d), d)
         == TakeNonZero(Scan(AllLines(text, pos), d, prev), 1)
  {
    var c := Load(Cursor(Good(text, pos), prev, false), d);
    LoadLastLine(text, pos, d, prev);
    RecordsStep(c, d);
    RecordsStep(Load(c, d), d);
    AllLinesLast(text, pos);
    TakeScanStep(text[pos..], [], d, prev);
  }

  /**
   * With a single field, end of file is only checked before the line is
   * read, so the line that reaches it is still yielded: a final line with
   * no '\n' counts, and a file ending in '\n' yields one more tuple, read
   * from the empty line after it.
   */
  lemma {:induction false} RecordsFromAllLines(text: string, pos: nat, d: char, prev: seq<int>)
    requires |prev| == 1 && pos <= |text|
    ensures Records(Load(Cursor(Good(text, pos), prev, false), d), d)
         == TakeNonZero(Scan(AllLines(text, pos), d, prev), 1)
    decreases |text| - pos
  {
    var next := NextDelim(text, pos, '\n');
    if next.None? {
      RecordsOfLastLine(text, pos, d, prev);
    } else {
      var j := next.value;
      var r := ParseLine(text[pos..j], d, prev);
      var rest := TakeNonZero(Scan(AllLines(text, j + 1), d, r), |prev|);
      assert Records(Load(Cursor(Good(text, pos), prev, false), d), d)
          == if r == Zeros(|prev|) then [] else [r] + rest by {
        RecordsLineStep(text, pos, j, d, prev);
        RecordsFromAllLines(text, j + 1, d, r);
      }
      assert TakeNonZero(Scan(AllLines(text, pos), d, prev), |prev|)
          == if r == Zeros(|prev|) then [] else [r] + rest by {
        AllLinesStep(text, pos, j);
        TakeScanStep(text[pos..j], AllLines(text, j + 1), d, prev);
      }
    }
  }

  /** The records of a whole file read with two fields or more. */
  lemma RecordsOfFile(text: string, d: char, n: nat)
    requires n >= 2
    ensures Records(Start(text, d, n), d) == TakeNonZero(Scan(CompleteLines(text, 0), d, Zeros(n)), n)
  {
    RecordsFromLines(text, 0, d, Zeros(n));
  }

  /** The records of a whole file read with a single field. */
  lemma RecordsOfFileSingle(text: string, d: char)
    ensures Records(Start(text, d, 1), d) == TakeNonZero(Scan(AllLines(text, 0), d, Zeros(1)), 1)
  {
    RecordsFromAllLines(text, 0, d, Zeros(1));
  }

  /** An empty file yields nothing, whatever the arity. */
  lemma EmptyFileYieldsNothing(d: char, n: nat)
    requires n >= 1
    ensures Records(Start("", d, n), d) == []
  {
    if n >= 2 {
      RecordsOfFile("", d, n);
    } else {
      RecordsOfFileSingle("", d);
      assert ParseLine("", d, Zeros(1)) == Zeros(1) by {
        ParseLineAt("", d, Zeros(1), 0);
      }
    }
  }

  // ---------------------------------------------------------------------
  // Round trip: a file written as decimal rows reads back row for row.

  /** A delimiter that cannot occur inside a decimal int or end a line. */
  predicate Separator(d: char)
  {
    !IsDigit(d) && d != '-' && d != '\n'
  }

  /** The decimal text of each value of a row. */
  function FormatRow(row: seq<int>): (fs: seq<string>)
    ensures |fs| == |row|
    ensures forall k :: 0 <= k < |row| ==> fs[k] == FormatInt(row[k])
  {
    if row == [] then [] else FormatRow(row[..|row| - 1]) + [FormatInt(row[|row| - 1])]
  }

  /** A row written as one line, without its '\n'. */
  function RenderRow(row: seq<int>, d: char): string
  {
    JoinFields(FormatRow(row), d)
  }

  /** The lines of a file holding `rows`, one per row. */
  function RowTexts(rows: seq<seq<int>>, d: char): (ls: seq<string>)
    ensures |ls| == |rows|
  {
    if rows == [] then [] else [RenderRow(rows[0], d)] + RowTexts(rows[1..], d)
  }

  /** A file holding `rows`, each line ended by '\n'. */
  function Render(rows: seq<seq<int>>, d: char): string
  {
    if rows == [] then "" else RenderRow(rows[0], d) + "\n" + Render(rows[1..], d)
  }

  /** Rows the reader can give back: the reader's arity, int range, and none all zero. */
  predicate Readable(rows: seq<seq<int>>, n: nat)
  {
    forall k :: 0 <= k < |rows| ==>
      && |rows[k]| == n
      && rows[k] != Zeros(n)
      && (forall i :: 0 <= i < n ==> IntMin <= rows[k][i] <= IntMax)
  }

  lemma FormatFree(v: int, c: char)
    requires !IsDigit(c) && c != '-'
    ensures Free(FormatInt(v), c)
  {
  }

  lemma RenderRowFree(row: seq<int>, d: char, c: char)
    requires c != d && !IsDigit(c) && c != '-'
    ensures Free(RenderRow(row, d), c)
  {
    var fs := FormatRow(row);
    forall k | 0 <= k < |fs| ensures Free(fs[k], c) {
      FormatFree(row[k], c);
    }
    JoinFree(fs, d, c);
  }

  /** A row written with a separator reads back as itself, whatever the tuple held before. */
  lemma ParseRenderedRow(row: seq<int>, d: char, prev: seq<int>)
    requires Separator(d) && |prev| == |row|
    requires forall i :: 0 <= i < |row| ==> IntMin <= row[i] <= IntMax
    ensures ParseLine(RenderRow(row, d), d, prev) == row
  {
    var fs := FormatRow(row);
    forall k | 0 <= k < |fs| ensures Free(fs[k], d) {
      FormatFree(row[k], d);
    }
    forall i | 0 <= i < |row| ensures ParseLine(RenderRow(row, d), d, prev)[i] == row[i] {
      ParseLineAt(RenderRow(row, d), d, prev, i);
      FieldOfJoin(fs, d, i);
      assert FormatInt(row[i]) + "" == FormatInt(row[i]);
      FormatThenParse(row[i], "", prev[i]);
    }
  }

  /** Looking for a character further into `x + y` is looking for it in `y`. */
  lemma {:induction false} NextDelimShift(x: string, y: string, k: nat, c: char)
    ensures NextDelim(x + y, |x| + k, c)
         == (match NextDelim(y, k, c) case None => None case Some(j) => Some(|x| + j))
    decreases |y| - k
  {
    if k < |y| {
      assert (x + y)[|x| + k] == y[k];
      NextDelimShift(x, y, k + 1, c);
    }
  }

  /** A '\n' at `j` in `y` ends the first line read from `x + y` at `|x| + k`. */
  lemma CompleteLinesShiftStep(x: string, y: string, k: nat, j: nat)
    requires NextDelim(y, k, '\n') == Some(j)
    ensures CompleteLines(x + y, |x| + k) == [y[k..j]] + CompleteLines(x + y, |x| + (j + 1))
  {
    NextDelimShift(x, y, k, '\n');
    CompleteLinesStep(x + y, |x| + k, |x| + j);
    assert (x + y)[|x| + k..|x| + j] == y[k..j];
  }

  lemma CompleteLinesShiftNone(x: string, y: string, k: nat)
    requires NextDelim(y, k, '\n').None?
    ensures CompleteLines(x + y, |x| + k) == [] == CompleteLines(y, k)
  {
    NextDelimShift(x, y, k, '\n');
  }

  /** The complete lines after a prefix `x` are those of the rest alone. */
  lemma {:induction false} CompleteLinesShift(x: string, y: string, k: nat)
    ensures CompleteLines(x + y, |x| + k) == CompleteLines(y, k)
    decreases |y| - k
  {
    var next := NextDelim(y, k, '\n');
    if next.Some? {
      var j := next.value;
      CompleteLinesShiftStep(x, y, k, j);
      CompleteLinesStep(y, k, j);
      CompleteLinesShift(x, y, j + 1);
    } else {
      CompleteLinesShiftNone(x, y, k);
    }
  }

  /** The complete lines of a rendered file are its rows' lines. */
  lemma {:induction false} LinesOfRender(rows: seq<seq<int>>, d: char)
    requires Separator(d)
    ensures CompleteLines(Render(rows, d), 0) == RowTexts(rows, d)
  {
    if rows != [] {
      var line := RenderRow(rows[0], d);
      var rest := Render(rows[1..], d);
      var text := Render(rows, d);
      assert text == (line + "\n") + rest;
      RenderRowFree(rows[0], d, '\n');
      NextDelimAt(text, 0, '\n', |line|);
      assert text[0..|line|] == line;
      CompleteLinesShift(line + "\n", rest, 0);
      LinesOfRender(rows[1..], d);
    }
  }

  lemma ReadableTail(rows: seq<seq<int>>, n: nat)
    requires Readable(rows, n) && rows != []
    ensures |rows[0]| == n && Readable(rows[1..], n)
  {
  }

  /** The first rendered row reads back as itself, and reading goes on from it. */
  lemma ScanRenderedStep(rows: seq<seq<int>>, d: char, prev: seq<int>)
    requires Separator(d) && Readable(rows, |prev|) && rows != []
    ensures Scan(RowTexts(rows, d), d, prev) == [rows[0]] + Scan(RowTexts(rows[1..], d), d, rows[0])
  {
    ParseRenderedRow(rows[0], d, prev);
    assert RowTexts(rows, d)[1..] == RowTexts(rows[1..], d);
  }

  lemma {:induction false} ScanRendered(rows: seq<seq<int>>, d: char, prev: seq<int>)
    requires Separator(d) && Readable(rows, |prev|)
    ensures Scan(RowTexts(rows, d), d, prev) == rows
  {
    if rows != [] {
      ScanRenderedStep(rows, d, prev);
      ReadableTail(rows, |prev|);
      ScanRendered(rows[1..], d, rows[0]);
    }
  }

  lemma {:induction false} TakeNonZeroAll(rs: seq<seq<int>>, n: nat)
    requires forall k :: 0 <= k < |rs| ==> rs[k] != Zeros(n)
    ensures TakeNonZero(rs, n) == rs
  {
    if rs != [] {
      TakeNonZeroAll(rs[1..], n);
    }
  }

  /**
   * Round trip: with two fields or more and a delimiter that cannot occur
   * in a number, a file of decimal rows, each ended by '\n' and none all
   * zero, reads back row for row.
   */
  lemma ReadRendered(rows: seq<seq<int>>, d: char, n: nat)
    requires n >= 2 && Separator(d) && Readable(rows, n)
    ensures Records(Start(Render(rows, d), d, n), d) == rows
  {
    RecordsOfFile(Render(rows, d), d, n);
    LinesOfRender(rows, d);
    ScanRendered(rows, d, Zeros(n));
    TakeNonZeroAll(rows, n);
  }

  // ---------------------------------------------------------------------
  // `CsvReaderTypeRepeat<DELIMITER, T, NUM>`.

  /** A reader type: its delimiter and its field types. */
  datatype ReaderType<T> = ReaderType(delimiter: char, fields: seq<T>)

  /**
   * `impl::TypeDuplicator<DELIMITER, NUM, T, Ts...>`: prepend one more T
   * per step; at 0, drop the first T and name a reader whose delimiter is
   * ',' (the requested one is not passed on).
   */
  function Duplicate<T>(delimiter: char, num: nat, pack: seq<T>): (r: ReaderType<T>)
    requires |pack| >= 1
    ensures r.delimiter == ','
    ensures |r.fields| == num + |pack| - 1
  {
    if num == 0 then ReaderType(',', pack[1..]) else Duplicate(delimiter, num - 1, [pack[0]] + pack)
  }

  /** `CsvReaderTypeRepeat<DELIMITER, T, NUM>` (NUM = 0 names no type). */
  function TypeRepeat<T>(delimiter: char, t: T, num: nat): ReaderType<T>
    requires num >= 1
  {
    Duplicate(delimiter, num, [t])
  }

  lemma {:induction false} DuplicateCopies<T>(delimiter: char, num: nat, t: T, m: nat)
    requires m >= 1
    ensures Duplicate(delimiter, num, seq(m, _ => t)) == ReaderType(',', seq(num + m - 1, _ => t))
  {
    if num == 0 {
      assert seq(m, _ => t)[1..] == seq(m - 1, _ => t);
    } else {
      assert [t] + seq(m, _ => t) == seq(m + 1, _ => t);
      DuplicateCopies(delimiter, num - 1, t, m + 1);
    }
  }

  /** The repeated reader has exactly NUM fields of type T and splits on ',' whatever delimiter is asked for. */
  lemma TypeRepeatIsCommaReader<T>(delimiter: char, t: T, num: nat)
    requires num >= 1
    ensures TypeRepeat(delimiter, t, num) == ReaderType(',', seq(num, _ => t))
  {
    assert [t] == seq(1, _ => t);
    DuplicateCopies(delimiter, num, t, 1);
  }

  /** The first `i` entries of `a` followed by the rest of `b`: a tuple part-way through being overwritten. */
  function Splice(a: seq<int>, b: seq<int>, i: nat): (r: seq<int>)
    requires i <= |a| == |b|
    ensures |r| == |a|
  {
    a[..i] + b[i..]
  }

  /** A splice with nothing of `b` left is `a`, and one with nothing of `a` yet is `b`. */
  lemma SpliceEnds(a: seq<int>, b: seq<int>)
    requires |a| == |b|
    ensures Splice(a, b, |a|) == a && Splice(a, b, 0) == b
  {
    assert a[..|a|] == a;
  }

  /** Writing the `i`-th entry of `a` over a splice extends it by one entry. */
  lemma SpliceStep(a: seq<int>, b: seq<int>, i: nat)
    requires i < |a| == |b|
    ensures Splice(a, b, i)[i] == b[i]
    ensures Splice(a, b, i)[i := a[i]] == Splice(a, b, i + 1)
  {
    assert Splice(a, b, i)[i := a[i]] == a[..i + 1] + b[i + 1..];
  }

  /** `CsvReader::iterator`. */
  class Iterator {
    const d: char
    var file: Stream
    var line: seq<int>
    var finish: bool

    function State(): Cursor
      reads this
    {
      Cursor(file, line, finish)
    }

    /** The iterator `begin()` builds once the file is open: the first line is loaded. */
    constructor Open(text: string, d: char, n: nat)
      requires n >= 1
      ensures this.d == d
      ensures State() == Start(text, d, n)
    {
      this.d := d;
      file := Good(text, 0);
      line := Zeros(n);
      finish := false;
      new;
      LoadLine();
    }

    /** The iterator `end()` builds: finished, tuple value-initialised. */
    constructor End(d: char, n: nat)
      ensures this.d == d
      ensures State() == EndCursor(n)
    {
      this.d := d;
      file := Exhausted;
      line := Zeros(n);
      finish := true;
    }

    /**
     * `load_line`, one field at a time: check end of file, read the
     * physical line before field 0, then read the next token of the line
     * and extract it into that field.
     */
    method LoadLine()
      requires |line| >= 1
      modifies this
      ensures State() == Load(old(State()), d)
    {
      ghost var c0 := State();
      // Field 0 checks for end of file before the physical line is read.
      if file.Exhausted? {
        finish := true;
      }
      var t := GetToken(file, '\n');
      file := t.1;
      LoadFields(t.0);
      LoadParts(c0, d, t.0, t.1);
    }

    /**
     * The fields of one physical line `l`, read in order from a fresh
     * string stream; before every field but the first the end-of-file
     * check is repeated.
     */
    method LoadFields(l: string)
      requires |line| >= 1
      modifies this
      ensures line == ParseLine(l, d, old(line))
      ensures file == old(file)
      ensures finish == (old(finish) || (|line| >= 2 && file.Exhausted?))
    {
      ghost var orig := line;
      ghost var target := ParseLine(l, d, orig);
      var n := |line|;
      var iss := Good(l, 0);
      var i := 0;
      SpliceEnds(target, orig);
      StreamAtStart(l, d);
      while i < n
        invariant 0 <= i <= n == |orig| == |target|
        invariant file == old(file) && iss == StreamAt(l, d, i)
        invariant finish == (old(finish) || (i >= 2 && file.Exhausted?))
        invariant line == Splice(target, orig, i)
      {
        iss := LoadField(l, i, iss, orig);
        i := i + 1;
      }
    }

    /**
     * One step `load_line<I>` of the template recursion, for `I == i`: after
     * the first field the end-of-file check is repeated, then the next
     * token of the line stream is parsed into entry `i` of the tuple.
     */
    method LoadField(l: string, i: nat, iss: Stream, ghost orig: seq<int>) returns (next: Stream)
      requires i < |orig| && iss == StreamAt(l, d, i)
      requires line == Splice(ParseLine(l, d, orig), orig, i)
      modifies this
      ensures next == StreamAt(l, d, i + 1)
      ensures line == Splice(ParseLine(l, d, orig), orig, i + 1)
      ensures file == old(file) && finish == (old(finish) || (i > 0 && file.Exhausted?))
    {
      if i > 0 && file.Exhausted? {
        finish := true;
      }
      var token := GetToken(iss, d);
      ReadField(l, d, i);
      ParseLineAt(l, d, orig, i);
      SpliceStep(ParseLine(l, d, orig), orig, i);
      next := token.1;
      line := line[i := ParseInt(token.0, line[i])];
    }

    /** `operator++`. */
    method Next()
      requires |line| >= 1
      modifies this
      ensures State() == Load(old(State()), d)
    {
      LoadLine();
    }

    /** `operator==` against another iterator. */
    predicate Equals(other: Iterator)
      reads this, other
    {
      Same(State(), other.State())
    }

    /** `operator*`. */
    function Current(): seq<int>
      reads this
    {
      line
    }
  }

  /** `CsvReader<DELIMITER, Ts...>`: a path, a delimiter and an arity. */
  class Reader {
    const path: Path
    const d: char
    const arity: nat

    constructor(p: Path, d: char, n: nat)
      ensures path == p && this.d == d && arity == n
    {
      path := p;
      this.d := d;
      arity := n;
    }

    /** `begin()`: throws when the file cannot be opened, before any line is read. */
    method Begin(fs: FileSystem) returns (r: Result<Iterator, string>)
      requires arity >= 1
      ensures r.Failure? <==> !Openable(fs, path)
      ensures r.Failure? ==> r.error == OpenError
      ensures r.Success? ==> fresh(r.value) && r.value.d == d && r.value.State() == Start(fs[path], d, arity)
    {
      if !Openable(fs, path) {
        return Failure(OpenError);
      }
      var it := new Iterator.Open(fs[path], d, arity);
      return Success(it);
    }

    method End() returns (it: Iterator)
      ensures fresh(it) && it.d == d && it.State() == EndCursor(arity)
    {
      it := new Iterator.End(d, arity);
    }
  }

  /**
   * `for (auto& t : CsvReader<d, ...>(p))`: the tuples yielded, in order,
   * or the open failure.
   */
  method ReadAll(fs: FileSystem, p: Path, d: char, n: nat) returns (r: Result<seq<seq<int>>, string>)
    requires n >= 1
    ensures !Openable(fs, p) ==> r == Failure(OpenError)
    ensures Openable(fs, p) ==> r == Success(Records(Start(fs[p], d, n), d))
  {
    var reader := new Reader(p, d, n);
    var b := reader.Begin(fs);
    if b.Failure? {
      return Failure(b.error);
    }
    var it := b.value;
    var end := reader.End();
    ghost var all := Records(it.State(), d);
    var acc: seq<seq<int>> := [];
    while !it.Equals(end)
      invariant it != end && it.d == d && |it.line| == n
      invariant end.State() == EndCursor(n)
      invariant acc + Records(it.State(), d) == all
      decreases Measure(it.State())
    {
      RecordsStep(it.State(), d);
      acc := acc + [it.Current()];
      it.Next();
    }
    RecordsStep(it.State(), d);
    assert acc + [] == acc;
    return Success(acc);
  }
}
