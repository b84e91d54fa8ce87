/**
 The CSV tokenizer of the instrument catalogue, against the printing rules of section 2 of RFC 4180: every field
 quoted, quotes inside doubled, fields separated by commas, records ended by LF or CRLF.
 */
module InstrumentCsv {
  import opened Wrappers

  datatype CsvError = InvalidCsv
  datatype Ending = Lf | CrLf

  // What the tokenizer holds between two characters.
  datatype Scanner = Scanner(rows: seq<seq<string>>, row: seq<string>, field: string, quoted: bool)

  const Quote := '"'

  predicate EndsInCr(field: string) {
    field != "" && field[|field| - 1] == '\r'
  }

  /** A trailing carriage return belongs to the line end. */
  function Stripped(field: string): string {
    if EndsInCr(field) then field[..|field| - 1] else field
  }

  function EndField(s: Scanner): Scanner {
    s.(row := s.row + [Stripped(s.field)], field := "")
  }

  function EndRow(s: Scanner): Scanner {
    var t := EndField(s);
    t.(rows := t.rows + [t.row], row := [])
  }

  function Scan(text: string, s: Scanner): Scanner
    decreases |text|
  {
    if text == "" then s
    else
      var c, rest := text[0], text[1..];
      if c == Quote then
        if s.quoted && rest != "" && rest[0] == Quote then Scan(rest[1..], s.(field := s.field + [Quote]))
        else Scan(rest, s.(quoted := !s.quoted))
      else if !s.quoted && c == ',' then Scan(rest, EndField(s))
      else if !s.quoted && c == '\n' then Scan(rest, EndRow(s))
      else Scan(rest, s.(field := s.field + [c]))
  }

  const Start := Scanner([], [], "", false)

  /** The rows at the end of the text: an unfinished record counts if there is anything of it. */
  function Closing(s: Scanner): Result<seq<seq<string>>, CsvError> {
    if s.quoted then Err(InvalidCsv)
    else if s.field != "" || s.row != [] then Ok(EndRow(s).rows)
    else Ok(s.rows)
  }

  function Parse(text: string): Result<seq<seq<string>>, CsvError> {
    Closing(Scan(text, Start))
  }

  /** The tokenizer's loop. */
  method ParseRows(text: string) returns (r: Result<seq<seq<string>>, CsvError>)
    ensures r == Parse(text)
  {
    var rows: seq<seq<string>>, row: seq<string>, field: string, quoted, i := [], [], "", false, 0;
    while i < |text|
      invariant i <= |text|
      invariant Scan(text[i..], Scanner(rows, row, field, quoted)) == Scan(text, Start)
    {
      var c := text[i];
      assert text[i..][0] == c && text[i..][1..] == text[i + 1..];
      if c == Quote {
        if quoted && i + 1 < |text| && text[i + 1] == Quote {
          assert text[i + 1..][1..] == text[i + 2..];
          field := field + [Quote];
          i := i + 1;
        } else {
          quoted := !quoted;
        }
      } else if !quoted && (c == ',' || c == '\n') {
        row := row + [Stripped(field)];
        field := "";
        if c == '\n' {
          rows := rows + [row];
          row := [];
        }
      } else {
        field := field + [c];
      }
      i := i + 1;
    }
    if quoted {
      return Err(InvalidCsv);
    }
    if field != "" || row != [] {
      row := row + [Stripped(field)];
      rows := rows + [row];
    }
    r := Ok(rows);
  }

  // What is refused.

  function Quotes(text: string): nat {
    if text == "" then 0 else Quotes(text[1..]) + if text[0] == Quote then 1 else 0
  }

  lemma {:induction false} ScanQuoted(text: string, s: Scanner)
    ensures Scan(text, s).quoted <==> s.quoted == (Quotes(text) % 2 == 0)
    decreases |text|
  {
    if text != "" {
      var c, rest := text[0], text[1..];
      if c == Quote {
        if s.quoted && rest != "" && rest[0] == Quote {
          ScanQuoted(rest[1..], s.(field := s.field + [Quote]));
        } else {
          ScanQuoted(rest, s.(quoted := !s.quoted));
        }
      } else if !s.quoted && c == ',' {
        ScanQuoted(rest, EndField(s));
      } else if !s.quoted && c == '\n' {
        ScanQuoted(rest, EndRow(s));
      } else {
        ScanQuoted(rest, s.(field := s.field + [c]));
      }
    }
  }

  /** A text is refused exactly when its last quote stays open: when it has an odd number of them. */
  lemma RefusedIff(text: string)
    ensures Parse(text).Err? <==> Quotes(text) % 2 == 1
  {
    hide Scan;
    ScanQuoted(text, Start);
  }

  // Printing.

  function Doubled(field: string): string {
    if field == "" then "" else (if field[0] == Quote then [Quote, Quote] else [field[0]]) + Doubled(field[1..])
  }

  function PrintField(field: string): string {
    [Quote] + Doubled(field) + [Quote]
  }

  function PrintFields(row: seq<string>): string {
    if row == [] then "" else if |row| == 1 then PrintField(row[0])
      else PrintField(row[0]) + "," + PrintFields(row[1..])
  }

  function PrintEnding(e: Ending): string {
    match e case Lf => "\n" case CrLf => "\r\n"
  }

  function Print(rows: seq<seq<string>>, ends: seq<Ending>): string
    requires |rows| == |ends|
  {
    if rows == [] then "" else PrintFields(rows[0]) + PrintEnding(ends[0]) + Print(rows[1..], ends[1..])
  }

  // What comes back.

  /** The last field of a CRLF record gives up the line end's carriage return; every other field gives up its own. */
  function ReadRow(row: seq<string>, e: Ending): seq<string> {
    seq(|row|, i requires 0 <= i < |row| => if i == |row| - 1 && e == CrLf then row[i] else Stripped(row[i]))
  }

  function ReadRows(rows: seq<seq<string>>, ends: seq<Ending>): seq<seq<string>>
    requires |rows| == |ends|
  {
    seq(|rows|, i requires 0 <= i < |rows| => ReadRow(rows[i], ends[i]))
  }

  /** Every record has a field; a record without any could not be told from one empty field. */
  ghost predicate NoEmptyRow(rows: seq<seq<string>>) {
    forall i :: 0 <= i < |rows| ==> rows[i] != []
  }

  ghost predicate Clean(row: seq<string>) {
    forall k :: 0 <= k < |row| ==> !EndsInCr(row[k])
  }

  lemma {:induction false} ScanDoubled(field: string, s: Scanner, rest: string)
    requires s.quoted && (rest == "" || rest[0] != Quote)
    ensures Scan(Doubled(field) + [Quote] + rest, s) == Scan(rest, s.(field := s.field + field, quoted := false))
    decreases |field|
  {
    var text := Doubled(field) + [Quote] + rest;
    if field == "" {
      assert text == [Quote] + rest;
      assert s.field + field == s.field;
    } else {
      var tail := Doubled(field[1..]) + [Quote] + rest;
      ScanDoubled(field[1..], s.(field := s.field + [field[0]]), rest);
      assert s.field + [field[0]] + field[1..] == s.field + field;
      if field[0] == Quote {
        assert text == [Quote] + ([Quote] + tail);
        assert text[1..] == [Quote] + tail && text[1..][1..] == tail;
      } else {
        assert text == [field[0]] + tail;
        assert text[1..] == tail;
      }
    }
  }

  /** A printed field is read back whole, whatever commas, quotes and line breaks it holds. */
  lemma ScanField(field: string, s: Scanner, rest: string)
    requires !s.quoted && s.field == "" && (rest == "" || rest[0] != Quote)
    ensures Scan(PrintField(field) + rest, s) == Scan(rest, s.(field := field))
  {
    var text := PrintField(field) + rest;
    assert text == [Quote] + (Doubled(field) + [Quote] + rest);
    assert text[1..] == Doubled(field) + [Quote] + rest;
    ScanDoubled(field, s.(quoted := true), rest);
    assert "" + field == field;
  }

  lemma ScanComma(s: Scanner, rest: string)
    requires !s.quoted
    ensures Scan("," + rest, s) == Scan(rest, EndField(s))
  {
    assert ("," + rest)[1..] == rest;
  }

  lemma ScanNewline(s: Scanner, rest: string)
    requires !s.quoted
    ensures Scan("\n" + rest, s) == Scan(rest, EndRow(s))
  {
    assert ("\n" + rest)[1..] == rest;
  }

  lemma ScanPlain(c: char, s: Scanner, rest: string)
    requires c != Quote && c != ',' && c != '\n'
    ensures Scan([c] + rest, s) == Scan(rest, s.(field := s.field + [c]))
  {
    assert ([c] + rest)[1..] == rest;
  }

  lemma ScanEnding(s: Scanner, e: Ending, rest: string)
    requires !s.quoted
    ensures Scan(PrintEnding(e) + rest, s) ==
            Scan(rest, EndRow(if e == CrLf then s.(field := s.field + ['\r']) else s))
  {
    hide Scan;
    if e == CrLf {
      assert "\r\n" + rest == ['\r'] + ("\n" + rest);
      ScanPlain('\r', s, "\n" + rest);
      ScanNewline(s.(field := s.field + ['\r']), rest);
    } else {
      ScanNewline(s, rest);
    }
  }

  /** A printed field and its comma add the field to the record. */
  lemma ScanFieldComma(field: string, s: Scanner, tail: string)
    requires !s.quoted && s.field == ""
    ensures Scan(PrintField(field) + ("," + tail), s) == Scan(tail, s.(row := s.row + [Stripped(field)]))
  {
    hide Scan, PrintField;
    ScanField(field, s, "," + tail);
    ScanComma(s.(field := field), tail);
  }

  lemma PrintFieldsFirst(row: seq<string>, rest: string)
    requires |row| > 1
    ensures PrintFields(row) + rest == PrintField(row[0]) + ("," + (PrintFields(row[1..]) + rest))
  {
    hide PrintField;
    Regrouped(PrintField(row[0]), PrintFields(row[1..]), rest);
  }

  lemma Regrouped(first: string, others: string, rest: string)
    ensures first + "," + others + rest == first + ("," + (others + rest))
  {
  }

  lemma ReadRowFirst(row: seq<string>, e: Ending, before: seq<string>)
    requires |row| > 1
    ensures before + [Stripped(row[0])] + ReadRow(row[1..], e) == before + ReadRow(row, e)
  {
    assert ReadRow(row, e) == [Stripped(row[0])] + ReadRow(row[1..], e);
  }

  lemma {:induction false} ScanFields(row: seq<string>, s: Scanner, e: Ending, rest: string)
    requires row != [] && !s.quoted && s.field == ""
    ensures Scan(PrintFields(row) + (PrintEnding(e) + rest), s)
      == Scan(rest, s.(rows := s.rows + [s.row + ReadRow(row, e)], row := []))
    decreases |row|
  {
    if |row| == 1 {
      LastField(row[0], s, e, rest);
      assert ReadRow(row, e) == [if e == CrLf then row[0] else Stripped(row[0])];
    } else {
      hide Scan, PrintField, PrintEnding, PrintFields, ReadRow, Stripped;
      PrintFieldsFirst(row, PrintEnding(e) + rest);
      ScanFieldComma(row[0], s, PrintFields(row[1..]) + (PrintEnding(e) + rest));
      ScanFields(row[1..], s.(row := s.row + [Stripped(row[0])]), e, rest);
      ReadRowFirst(row, e, s.row);
    }
  }

  lemma LastField(field: string, s: Scanner, e: Ending, rest: string)
    requires !s.quoted && s.field == ""
    ensures Scan(PrintField(field) + (PrintEnding(e) + rest), s) ==
            Scan(rest, s.(rows := s.rows + [s.row + [if e == CrLf then field else Stripped(field)]], row := []))
  {
    hide Scan, PrintField;
    ScanField(field, s, PrintEnding(e) + rest);
    ScanEnding(s.(field := field), e, rest);
    assert (field + ['\r'])[..|field|] == field;
  }

  lemma {:induction false} ScanRows(rows: seq<seq<string>>, ends: seq<Ending>, s: Scanner, rest: string)
    requires |rows| == |ends| && NoEmptyRow(rows)
    requires !s.quoted && s.field == "" && s.row == []
    ensures Scan(Print(rows, ends) + rest, s) == Scan(rest, s.(rows := s.rows + ReadRows(rows, ends)))
    decreases |rows|
  {
    if rows == [] {
      assert Print(rows, ends) + rest == rest;
      assert s.rows + ReadRows(rows, ends) == s.rows;
    } else {
      var tail := Print(rows[1..], ends[1..]) + rest;
      assert Print(rows, ends) + rest == PrintFields(rows[0]) + (PrintEnding(ends[0]) + tail);
      hide Scan, PrintFields, PrintEnding, ReadRow;
      ScanFields(rows[0], s, ends[0], tail);
      var s' := s.(rows := s.rows + [s.row + ReadRow(rows[0], ends[0])]);
      assert s.row + ReadRow(rows[0], ends[0]) == ReadRow(rows[0], ends[0]);
      ScanRows(rows[1..], ends[1..], s', rest);
      assert s'.rows + ReadRows(rows[1..], ends[1..]) == s.rows + ReadRows(rows, ends);
    }
  }

  /** What reading printed records gives, for every choice of line ends. */
  lemma ParsePrinted(rows: seq<seq<string>>, ends: seq<Ending>)
    requires |rows| == |ends| && NoEmptyRow(rows)
    ensures Parse(Print(rows, ends)) == Ok(ReadRows(rows, ends))
  {
    ScanRows(rows, ends, Start, "");
    assert Print(rows, ends) + "" == Print(rows, ends);
    assert [] + ReadRows(rows, ends) == ReadRows(rows, ends);
  }

  /** A field keeps its content unless it ends in a carriage return that is taken for a line end's. */
  predicate Survives(rows: seq<seq<string>>, ends: seq<Ending>)
    requires |rows| == |ends|
  {
    forall i, k :: 0 <= i < |rows| && 0 <= k < |rows[i]| && !(k == |rows[i]| - 1 && ends[i] == CrLf) ==>
      !EndsInCr(rows[i][k])
  }

  lemma ReadIff(rows: seq<seq<string>>, ends: seq<Ending>)
    requires |rows| == |ends|
    ensures ReadRows(rows, ends) == rows <==> Survives(rows, ends)
  {
    var read := ReadRows(rows, ends);
    if Survives(rows, ends) {
      forall i | 0 <= i < |rows| ensures read[i] == rows[i] {
      }
    } else {
      var i, k :| 0 <= i < |rows| && 0 <= k < |rows[i]| && !(k == |rows[i]| - 1 && ends[i] == CrLf)
        && EndsInCr(rows[i][k]);
      assert |read[i][k]| == |rows[i][k]| - 1;
    }
  }

  /** Printing and reading returns the records, exactly when no field's own trailing carriage return is in the way. */
  lemma RoundTripIff(rows: seq<seq<string>>, ends: seq<Ending>)
    requires |rows| == |ends| && NoEmptyRow(rows)
    ensures Parse(Print(rows, ends)) == Ok(rows) <==> Survives(rows, ends)
  {
    hide Parse, Print, ReadRows, Survives;
    ParsePrinted(rows, ends);
    ReadIff(rows, ends);
  }

  lemma RoundTrip(rows: seq<seq<string>>, ends: seq<Ending>)
    requires |rows| == |ends| && NoEmptyRow(rows) && forall i :: 0 <= i < |rows| ==> Clean(rows[i])
    ensures Parse(Print(rows, ends)) == Ok(rows)
  {
    hide Parse, Print;
    RoundTripIff(rows, ends);
  }

  /** The last record may go without a line end, unless it is one empty field: then nothing of it is left to see. */
  lemma UnendedIff(rows: seq<seq<string>>, ends: seq<Ending>, last: seq<string>)
    requires |rows| == |ends| && NoEmptyRow(rows) && last != []
    requires Clean(last) && forall i :: 0 <= i < |rows| ==> Clean(rows[i])
    ensures Parse(Print(rows, ends) + PrintFields(last)) == Ok(rows + [last]) <==> last != [""]
  {
    hide Scan, Print, PrintFields;
    assert ReadRows(rows, ends) == rows by {
      ReadIff(rows, ends);
    }
    ScanRows(rows, ends, Start, PrintFields(last));
    assert [] + rows == rows;
    ScanUnended(last, Start.(rows := rows));
    assert [] + last[..|last| - 1] == last[..|last| - 1];
    UnendedRow(rows, last);
  }

  lemma UnendedRow(rows: seq<seq<string>>, last: seq<string>)
    requires last != [] && Clean(last)
    ensures Closing(Scanner(rows, last[..|last| - 1], last[|last| - 1], false)) == Ok(rows + [last]) <==> last != [""]
  {
    var s := Scanner(rows, last[..|last| - 1], last[|last| - 1], false);
    assert last[..|last| - 1] + [last[|last| - 1]] == last;
    assert EndRow(s).rows == rows + [last];
    if s.field == "" && s.row == [] {
      assert |rows| != |rows + [last]|;
    }
  }

  lemma NoRest(text: string)
    ensures text + "" == text
  {
  }

  lemma InitAfterFirst(row: seq<string>, before: seq<string>)
    requires |row| > 1
    ensures before + [row[0]] + row[1..][..|row| - 2] == before + row[..|row| - 1]
  {
    assert row[..|row| - 1] == [row[0]] + row[1..][..|row| - 2];
  }

  lemma ScanOnlyField(field: string, s: Scanner)
    requires !s.quoted && s.field == ""
    ensures Scan(PrintField(field), s) == s.(field := field)
  {
    ScanField(field, s, "");
    NoRest(PrintField(field));
  }

  /** All fields but the last are ended by their commas. */
  lemma {:induction false} ScanUnended(row: seq<string>, s: Scanner)
    requires row != [] && !s.quoted && s.field == "" && Clean(row)
    ensures Scan(PrintFields(row), s) == s.(row := s.row + row[..|row| - 1], field := row[|row| - 1])
    decreases |row|
  {
    if |row| == 1 {
      hide Scan, PrintField;
      ScanOnlyField(row[0], s);
      assert s.row + row[..0] == s.row;
    } else {
      hide Scan, PrintField, PrintFields;
      PrintFieldsFirst(row, "");
      NoRest(PrintFields(row));
      NoRest(PrintFields(row[1..]));
      ScanFieldComma(row[0], s, PrintFields(row[1..]));
      assert Clean(row[1..]) && Stripped(row[0]) == row[0];
      ScanUnended(row[1..], s.(row := s.row + [row[0]]));
      InitAfterFirst(row, s.row);
    }
  }
}
