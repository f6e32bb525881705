/** Comma-separated records (RFC 4180): how rows are written, and that a reader gets exactly their texts back. */
module Csv {

  /** A cell's value; numbers, booleans and JSON come with their text, which is not null. */
  datatype Value = Null | Text(text: string) | Number(text: string) | Json(text: string)

  predicate StartsFormula(s: string) {
    s != "" && s[0] in "=+-@\t\r"
  }

  predicate NeedsQuotes(s: string) {
    exists i | 0 <= i < |s| :: s[i] in "\",\r\n"
  }

  /** The text a reader is meant to see: a text that looks like a formula gets a leading quote. */
  function Seen(v: Value): string {
    match v
    case Null => ""
    case Text(s) => if StartsFormula(s) then "'" + s else s
    case Number(s) => s
    case Json(s) => s
  }

  function Doubled(s: string): string {
    if s == "" then "" else (if s[0] == '"' then "\"\"" else [s[0]]) + Doubled(s[1..])
  }

  function Cell(v: Value): string {
    if v.Null? then ""
    else if NeedsQuotes(Seen(v)) then "\"" + Doubled(Seen(v)) + "\"" else Seen(v)
  }

  function Joined(cells: seq<string>): string {
    if cells == [] then ""
    else if |cells| == 1 then cells[0]
    else cells[0] + "," + Joined(cells[1..])
  }

  function Cells(values: seq<Value>): seq<string> {
    seq(|values|, i requires 0 <= i < |values| => Cell(values[i]))
  }

  function Line(values: seq<Value>): string {
    Joined(Cells(values)) + "\r\n"
  }

  function Lines(rows: seq<seq<Value>>): string {
    if rows == [] then "" else Line(rows[0]) + Lines(rows[1..])
  }

  // ---- a reader, as section 2 says -----------------------------------------------------------------------

  /** Reading a field: not started, inside or after quotes, or in an unquoted field. */
  datatype Mode = Start | Plain | Quoted | QuoteSeen | ReturnSeen

  /** Rows read, fields of the row so far, text of the field so far. */
  datatype Reader = Reader(mode: Mode, rows: seq<seq<string>>, row: seq<string>, field: string) | Broken

  const NewReader := Reader(Start, [], [], "")

  function EndField(r: Reader): Reader
    requires r.Reader?
  {
    Reader(Start, r.rows, r.row + [r.field], "")
  }

  /** One character outside quotes, at the start of a field or within one. */
  function Outside(r: Reader, c: char): Reader
    requires r.Reader?
  {
    if c == ',' then EndField(r)
    else if c == '\r' then r.(mode := ReturnSeen)
    else if c == '\n' then Broken
    else if c == '"' then if r.mode.Start? then r.(mode := Quoted) else Broken
    else r.(mode := Plain, field := r.field + [c])
  }

  function Step(r: Reader, c: char): Reader {
    if r.Broken? then r
    else
      match r.mode
      case Start => Outside(r, c)
      case Plain => Outside(r, c)
      case Quoted => if c == '"' then r.(mode := QuoteSeen) else r.(field := r.field + [c])
      case QuoteSeen =>
        if c == '"' then r.(mode := Quoted, field := r.field + [c])
        else if c == ',' then EndField(r)
        else if c == '\r' then r.(mode := ReturnSeen)
        else Broken
      case ReturnSeen =>
        if c == '\n' then Reader(Start, r.rows + [r.row + [r.field]], [], "") else Broken
  }

  function Read(r: Reader, s: string): Reader
    decreases s
  {
    if s == "" then r else Read(Step(r, s[0]), s[1..])
  }

  // ---- the round trip -------------------------------------------------------------------------------------

  lemma {:induction false} ReadConcat(r: Reader, a: string, b: string)
    ensures Read(r, a + b) == Read(Read(r, a), b)
    decreases a
  {
    hide Step;
    if a == "" {
      assert a + b == b;
    } else {
      assert (a + b)[1..] == a[1..] + b;
      ReadConcat(Step(r, a[0]), a[1..], b);
    }
  }

  lemma {:induction false} ReadPlain(r: Reader, s: string)
    requires r.Reader? && (r.mode.Start? || r.mode.Plain?) && !NeedsQuotes(s)
    ensures Read(r, s) == if s == "" then r else r.(mode := Plain, field := r.field + s)
    decreases s
  {
    if s != "" {
      assert s[0] !in "\",\r\n";
      var next := r.(mode := Plain, field := r.field + [s[0]]);
      assert Step(r, s[0]) == next;
      assert !NeedsQuotes(s[1..]) by {
        forall i | 0 <= i < |s[1..]|
          ensures s[1..][i] !in "\",\r\n"
        {
          assert s[1..][i] == s[i + 1];
        }
      }
      ReadPlain(next, s[1..]);
      assert r.field + s == r.field + [s[0]] + s[1..];
    }
  }

  lemma ReadTwo(r: Reader, a: char, b: char, rest: string)
    ensures Read(r, [a, b] + rest) == Read(Step(Step(r, a), b), rest)
  {
    hide Step;
    assert ([a, b] + rest)[1..] == [b] + rest && ([b] + rest)[1..] == rest;
  }

  lemma {:induction false} ReadDoubled(r: Reader, s: string)
    requires r.Reader? && r.mode.Quoted?
    ensures Read(r, Doubled(s)) == r.(field := r.field + s)
    decreases s
  {
    if s == "" {
      assert r.field + s == r.field;
    } else {
      var next := r.(field := r.field + [s[0]]);
      assert r.field + s == r.field + [s[0]] + s[1..];
      ReadDoubled(next, s[1..]);
      if s[0] == '"' {
        ReadTwo(r, '"', '"', Doubled(s[1..]));
        assert "\"\"" + Doubled(s[1..]) == ['"', '"'] + Doubled(s[1..]);
      } else {
        assert ([s[0]] + Doubled(s[1..]))[1..] == Doubled(s[1..]);
      }
    }
  }

  /** At the end of a cell the reader holds exactly its text, and is not inside quotes. */
  ghost predicate AtEndOf(r: Reader, rows: seq<seq<string>>, row: seq<string>, field: string) {
    r == Reader(Start, rows, row, field) || r == Reader(Plain, rows, row, field) || r == Reader(QuoteSeen, rows, row, field)
  }

  lemma ReadCell(rows: seq<seq<string>>, row: seq<string>, v: Value)
    ensures AtEndOf(Read(Reader(Start, rows, row, ""), Cell(v)), rows, row, Seen(v))
  {
    var r := Reader(Start, rows, row, "");
    var s := Seen(v);
    if NeedsQuotes(s) {
      var open := Reader(Quoted, rows, row, "");
      assert Cell(v) == "\"" + (Doubled(s) + "\"");
      assert Read(r, Cell(v)) == Read(open, Doubled(s) + "\"") by {
        assert ("\"" + (Doubled(s) + "\""))[1..] == Doubled(s) + "\"";
      }
      ReadConcat(open, Doubled(s), "\"");
      ReadDoubled(open, s);
      assert open.field + s == s;
      assert Read(open.(field := s), "\"") == Reader(QuoteSeen, rows, row, s) by {
        assert "\""[1..] == "";
      }
    } else {
      ReadPlain(r, s);
      assert "" + s == s;
    }
  }

  lemma ReadComma(r: Reader, rows: seq<seq<string>>, row: seq<string>, field: string)
    requires AtEndOf(r, rows, row, field)
    ensures Read(r, ",") == Reader(Start, rows, row + [field], "")
  {
    assert ","[1..] == "";
  }

  lemma ReadLineEnd(r: Reader, rows: seq<seq<string>>, row: seq<string>, field: string)
    requires AtEndOf(r, rows, row, field)
    ensures Read(r, "\r\n") == Reader(Start, rows + [row + [field]], [], "")
  {
    ReadTwo(r, '\r', '\n', "");
    assert "\r\n" == ['\r', '\n'] + "";
  }

  function SeenAll(values: seq<Value>): seq<string> {
    seq(|values|, i requires 0 <= i < |values| => Seen(values[i]))
  }

  lemma {:induction false} ReadCells(rows: seq<seq<string>>, row: seq<string>, values: seq<Value>)
    requires values != []
    ensures AtEndOf(Read(Reader(Start, rows, row, ""), Joined(Cells(values))),
                    rows, row + SeenAll(values[..|values| - 1]), Seen(values[|values| - 1]))
    decreases |values|
  {
    var r := Reader(Start, rows, row, "");
    hide Cell;
    ReadCell(rows, row, values[0]);
    if |values| == 1 {
      assert row + SeenAll(values[..0]) == row;
    } else {
      var rest := values[1..];
      var c := Read(r, Cell(values[0]));
      JoinedCells(values);
      hide Read;
      hide Joined;
      hide AtEndOf;
      hide Cells;
      ReadConcat(r, Cell(values[0]), "," + Joined(Cells(rest)));
      ReadConcat(c, ",", Joined(Cells(rest)));
      ReadComma(c, rows, row, Seen(values[0]));
      ReadCells(rows, row + [Seen(values[0])], rest);
      assert row + [Seen(values[0])] + SeenAll(rest[..|rest| - 1]) == row + SeenAll(values[..|values| - 1]);
    }
  }

  lemma JoinedCells(values: seq<Value>)
    requires |values| > 1
    ensures Joined(Cells(values)) == Cell(values[0]) + ("," + Joined(Cells(values[1..])))
  {
    assert Cells(values)[1..] == Cells(values[1..]);
  }

  /** What a reader gets for a row; an empty row is written like one empty cell. */
  function RowTexts(values: seq<Value>): seq<string> {
    if values == [] then [""] else SeenAll(values)
  }

  lemma ReadEmptyLine(rows: seq<seq<string>>)
    ensures Read(Reader(Start, rows, [], ""), Line([])) == Reader(Start, rows + [[""]], [], "")
  {
    assert Line([]) == "\r\n";
    var none: seq<string> := [];
    assert none + [""] == [""];
    hide Read;
    ReadLineEnd(Reader(Start, rows, [], ""), rows, [], "");
  }

  lemma ReadFullLine(rows: seq<seq<string>>, values: seq<Value>)
    requires values != []
    ensures Read(Reader(Start, rows, [], ""), Line(values)) == Reader(Start, rows + [SeenAll(values)], [], "")
  {
    hide Read;
    hide Joined;
    hide AtEndOf;
    hide Cells;
    var r := Reader(Start, rows, [], "");
    var front := SeenAll(values[..|values| - 1]);
    ReadCells(rows, [], values);
    assert [] + front == front;
    ReadConcat(r, Joined(Cells(values)), "\r\n");
    ReadLineEnd(Read(r, Joined(Cells(values))), rows, front, Seen(values[|values| - 1]));
    assert front + [Seen(values[|values| - 1])] == SeenAll(values);
  }

  lemma ReadLine(rows: seq<seq<string>>, values: seq<Value>)
    ensures Read(Reader(Start, rows, [], ""), Line(values)) == Reader(Start, rows + [RowTexts(values)], [], "")
  {
    hide Read;
    hide Line;
    if values == [] {
      ReadEmptyLine(rows);
    } else {
      ReadFullLine(rows, values);
    }
  }

  function SeenRows(rows: seq<seq<Value>>): seq<seq<string>> {
    seq(|rows|, i requires 0 <= i < |rows| => SeenAll(rows[i]))
  }

  function ReadRows(rows: seq<seq<Value>>): seq<seq<string>> {
    seq(|rows|, i requires 0 <= i < |rows| => RowTexts(rows[i]))
  }

  lemma {:induction false} ReadLines(before: seq<seq<string>>, rows: seq<seq<Value>>)
    ensures Read(Reader(Start, before, [], ""), Lines(rows)) == Reader(Start, before + ReadRows(rows), [], "")
    decreases |rows|
  {
    if rows == [] {
      assert before + ReadRows(rows) == before;
    } else {
      var r := Reader(Start, before, [], "");
      ReadConcat(r, Line(rows[0]), Lines(rows[1..]));
      hide Read;
      hide Line;
      ReadLine(before, rows[0]);
      ReadLines(before + [RowTexts(rows[0])], rows[1..]);
      assert before + [RowTexts(rows[0])] + ReadRows(rows[1..]) == before + ReadRows(rows);
    }
  }

  /**
   * A reader of any number of records ends between two records with one row for each; it gets exactly the rows of
   * cell texts if and only if no row is empty (an empty one reads as one empty cell).
   */
  lemma CsvRoundTrip(rows: seq<seq<Value>>)
    ensures Read(NewReader, Lines(rows)) == Reader(Start, ReadRows(rows), [], "")
    ensures ReadRows(rows) == SeenRows(rows) <==> forall i | 0 <= i < |rows| :: rows[i] != []
  {
    ReadLines([], rows);
    assert [] + ReadRows(rows) == ReadRows(rows);
    if i :| 0 <= i < |rows| && rows[i] == [] {
      assert |ReadRows(rows)[i]| == 1 && |SeenRows(rows)[i]| == 0;
    }
  }

  /**
   * No text cell is seen as a formula, one that would not be is seen as it is, and so is every value that is not text.
   */
  lemma NoFormula(v: Value)
    ensures v.Text? ==> Seen(v) == "" || Seen(v)[0] !in "=+-@\t\r"
    ensures v.Text? ==> (Seen(v) == v.text <==> v.text == "" || v.text[0] !in "=+-@\t\r")
    ensures !v.Text? ==> Seen(v) == if v.Null? then "" else v.text
  {
    if v.Text? && StartsFormula(v.text) {
      assert |Seen(v)| == |v.text| + 1;
    }
  }

  /** Two texts are seen alike only when one is the other with the quote that a formula is given. */
  lemma SeenAlikeIff(a: string, b: string)
    ensures Seen(Text(a)) == Seen(Text(b)) <==>
      a == b || (StartsFormula(b) && a == "'" + b) || (StartsFormula(a) && b == "'" + a)
  {
    if StartsFormula(a) && StartsFormula(b) {
      assert ("'" + a)[1..] == a && ("'" + b)[1..] == b;
    }
  }
}
