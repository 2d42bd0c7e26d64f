/** Comma-separated text: `Array.prototype.join`, `String.prototype.split`,
    the two ways of wrapping a field in double quotes (bare, as the bills
    export does, and with embedded quotes doubled, as section 2 of RFC 4180
    asks), and a reader for quoted records that undoes the doubled form. */
module Csv {
  import opened Wrappers

  /** `parts.join(sep)`. */
  function Join(parts: seq<string>, sep: string): string
  {
    if |parts| == 0 then ""
    else if |parts| == 1 then parts[0]
    else parts[0] + sep + Join(parts[1..], sep)
  }

  /** `s.split(sep)` for a one-character separator; never empty. */
  function Split(s: string, sep: char): (parts: seq<string>)
    ensures |parts| >= 1
  {
    if |s| == 0 then [""]
    else
      var rest := Split(s[1..], sep);
      if s[0] == sep then [""] + rest
      else [[s[0]] + rest[0]] + rest[1..]
  }

  /** `f` applied to every element, in order (`Array.prototype.map`). */
  function MapEach<A, B>(xs: seq<A>, f: A -> B): (ys: seq<B>)
    ensures |ys| == |xs|
    ensures forall i :: 0 <= i < |xs| ==> ys[i] == f(xs[i])
  {
    if |xs| == 0 then [] else [f(xs[0])] + MapEach(xs[1..], f)
  }

  /** The position of the first `c` in `s`, if any. */
  function FindChar(s: string, c: char): (k: Option<nat>)
    ensures k.Some? ==> k.value < |s| && s[k.value] == c && c !in s[..k.value]
    ensures k.None? ==> c !in s
  {
    if |s| == 0 then None
    else if s[0] == c then Some(0)
    else match FindChar(s[1..], c)
      case None => None
      case Some(k) =>
        assert s[..k + 1] == [s[0]] + s[1..][..k];
        Some(k + 1)
  }

  /** The first `c` of `a + tail` is the head of `tail` when `a` holds none. */
  lemma {:induction false} FindCharAfter(a: string, tail: string, c: char)
    requires c !in a && |tail| > 0 && tail[0] == c
    ensures FindChar(a + tail, c) == Some(|a|)
  {
    if |a| > 0 {
      assert (a + tail)[1..] == a[1..] + tail;
      FindCharAfter(a[1..], tail, c);
    }
  }

  /** A field wrapped in double quotes with nothing escaped. */
  function Quote(c: string): string
  {
    "\"" + c + "\""
  }

  /** Every double quote of `c` doubled. */
  function Escape(c: string): (e: string)
    ensures '"' !in c ==> e == c
    ensures |e| >= |c|
  {
    if |c| == 0 then ""
    else (if c[0] == '"' then "\"\"" else [c[0]]) + Escape(c[1..])
  }

  /** A field wrapped in double quotes with embedded quotes doubled. */
  function EscapedField(c: string): string
  {
    "\"" + Escape(c) + "\""
  }

  /** Reads the inside of a quoted field, the opening quote already consumed:
      everything up to the closing quote, a doubled quote standing for one.
      Returns the field and the text after the closing quote. */
  function ReadQuoted(s: string): (r: Option<(string, string)>)
    ensures r.Some? ==> |r.value.1| < |s|
    decreases |s|
  {
    if |s| == 0 then None
    else if s[0] == '"' then
      if |s| >= 2 && s[1] == '"' then
        match ReadQuoted(s[2..])
        case None => None
        case Some((c, rest)) => Some(("\"" + c, rest))
      else Some(("", s[1..]))
    else
      match ReadQuoted(s[1..])
      case None => None
      case Some((c, rest)) => Some(([s[0]] + c, rest))
  }

  /** Reads one quoted field at the start of `s`. */
  function ReadField(s: string): (r: Option<(string, string)>)
    ensures r.Some? ==> |r.value.1| < |s|
  {
    if |s| > 0 && s[0] == '"' then ReadQuoted(s[1..]) else None
  }

  /** Reads one record: quoted fields separated by commas, ending at the end
      of the text or just before a line feed. */
  function ReadRecord(s: string): (r: Option<(seq<string>, string)>)
    ensures r.Some? ==> |r.value.1| < |s|
    decreases |s|
  {
    match ReadField(s)
    case None => None
    case Some((c, rest)) =>
      if |rest| > 0 && rest[0] == ',' then
        match ReadRecord(rest[1..])
        case None => None
        case Some((cs, tail)) => Some(([c] + cs, tail))
      else if rest == "" || rest[0] == '\n' then Some(([c], rest))
      else None
  }

  /** Reads line-feed separated records up to the end of the text. */
  function ReadRecords(s: string): Option<seq<seq<string>>>
    decreases |s|
  {
    match ReadRecord(s)
    case None => None
    case Some((rec, rest)) =>
      if rest == "" then Some([rec])
      else if rest[0] == '\n' then
        match ReadRecords(rest[1..])
        case None => None
        case Some(recs) => Some([rec] + recs)
      else None
  }

  /** One record with every field escaped. */
  function EscapedRecord(cells: seq<string>): string
  {
    Join(MapEach(cells, EscapedField), ",")
  }

  /** One record with every field quoted as is. */
  function QuotedRecord(cells: seq<string>): string
  {
    Join(MapEach(cells, Quote), ",")
  }

  /** Reading undoes escaping, whatever the field holds, as long as the
      closing quote is not followed by another quote. */
  lemma {:induction false} ReadQuotedEscape(c: string, rest: string)
    requires rest == "" || rest[0] != '"'
    ensures ReadQuoted(Escape(c) + "\"" + rest) == Some((c, rest))
    decreases |c|
  {
    var s := Escape(c) + "\"" + rest;
    if |c| == 0 {
      assert s == "\"" + rest;
      assert s[1..] == rest;
    } else {
      var tail := Escape(c[1..]) + "\"" + rest;
      assert ReadQuoted(tail) == Some((c[1..], rest)) by {
        ReadQuotedEscape(c[1..], rest);
      }
      if c[0] == '"' {
        assert s == "\"\"" + tail by {
          assert Escape(c) == "\"\"" + Escape(c[1..]);
        }
        ReadDoubledQuote(tail, c[1..], rest);
        assert "\"" + c[1..] == c;
      } else {
        assert s == [c[0]] + tail by {
          assert Escape(c) == [c[0]] + Escape(c[1..]);
        }
        ReadPlainChar(c[0], tail, c[1..], rest);
        assert [c[0]] + c[1..] == c;
      }
    }
  }

  /** A doubled quote inside a quoted field stands for one quote. */
  lemma ReadDoubledQuote(t: string, c: string, rest: string)
    requires ReadQuoted(t) == Some((c, rest))
    ensures ReadQuoted("\"\"" + t) == Some(("\"" + c, rest))
  {
    assert ("\"\"" + t)[2..] == t;
  }

  /** Any other character inside a quoted field stands for itself. */
  lemma ReadPlainChar(x: char, t: string, c: string, rest: string)
    requires x != '"'
    requires ReadQuoted(t) == Some((c, rest))
    ensures ReadQuoted([x] + t) == Some(([x] + c, rest))
  {
    assert ([x] + t)[1..] == t;
  }

  /** Reading an escaped field gives back its cell and what follows it. */
  lemma ReadEscapedField(c: string, rest: string)
    requires rest == "" || rest[0] != '"'
    ensures ReadField(EscapedField(c) + rest) == Some((c, rest))
  {
    var s := EscapedField(c) + rest;
    assert s[0] == '"';
    assert s[1..] == Escape(c) + "\"" + rest;
    ReadQuotedEscape(c, rest);
  }

  /** An escaped record built cell by cell: the first field, then a comma
      and the rest. It is the same text as `EscapedRecord`. */
  function EscapedLine(cells: seq<string>): string
    requires |cells| >= 1
  {
    if |cells| == 1 then EscapedField(cells[0])
    else EscapedField(cells[0]) + ("," + EscapedLine(cells[1..]))
  }

  lemma {:induction false} EscapedLineIsRecord(cells: seq<string>)
    requires |cells| >= 1
    ensures EscapedLine(cells) == EscapedRecord(cells)
    decreases |cells|
  {
    if |cells| == 1 {
      assert MapEach(cells, EscapedField) == [EscapedField(cells[0])];
    } else {
      EscapedLineIsRecord(cells[1..]);
      EscapedRecordCons(cells);
    }
  }

  /** Reading an escaped record gives back its cells. */
  lemma ReadEscapedRecord(cells: seq<string>, tail: string)
    requires |cells| >= 1
    requires tail == "" || tail[0] == '\n'
    ensures ReadRecord(EscapedRecord(cells) + tail) == Some((cells, tail))
  {
    EscapedLineIsRecord(cells);
    ReadEscapedLine(cells, tail);
  }

  lemma {:induction false} ReadEscapedLine(cells: seq<string>, tail: string)
    requires |cells| >= 1
    requires tail == "" || tail[0] == '\n'
    ensures ReadRecord(EscapedLine(cells) + tail) == Some((cells, tail))
    decreases |cells|
  {
    var c := cells[0];
    if |cells| == 1 {
      ReadEscapedField(c, tail);
      assert cells == [c];
    } else {
      var rest := EscapedLine(cells[1..]) + tail;
      var x := EscapedField(c) + ("," + rest);
      assert EscapedLine(cells) + tail == x;
      assert ReadRecord(x) == Some((cells, tail)) by {
        ReadEscapedLine(cells[1..], tail);
        ReadEscapedField(c, "," + rest);
        ReadRecordAfterField(x, c, rest, cells[1..], tail);
        assert [c] + cells[1..] == cells;
      }
    }
  }

  /** A field followed by a comma and a record reads as one longer record. */
  lemma ReadRecordAfterField(x: string, c: string, rest: string, cs: seq<string>, tail: string)
    requires ReadField(x) == Some((c, "," + rest))
    requires ReadRecord(rest) == Some((cs, tail))
    ensures ReadRecord(x) == Some(([c] + cs, tail))
  {
    assert ("," + rest)[1..] == rest;
  }

  /** An escaped record of two or more cells is its first field, a comma,
      and the escaped record of the remaining cells. */
  lemma EscapedRecordCons(cells: seq<string>)
    requires |cells| >= 2
    ensures EscapedRecord(cells) == EscapedField(cells[0]) + "," + EscapedRecord(cells[1..])
  {
    var fields := MapEach(cells, EscapedField);
    assert fields[1..] == MapEach(cells[1..], EscapedField);
  }

  /** Reading line-feed separated escaped records gives back all of them. */
  lemma ReadEscapedRecords(rows: seq<seq<string>>)
    requires |rows| >= 1
    requires forall i :: 0 <= i < |rows| ==> |rows[i]| >= 1
    ensures ReadRecords(Join(MapEach(rows, EscapedRecord), "\n")) == Some(rows)
  {
    EscapedTextIsJoin(rows);
    ReadEscapedText(rows);
  }

  /** Escaped records built row by row: the first record, then a line feed
      and the rest. It is the same text as the joined records. */
  function EscapedText(rows: seq<seq<string>>): string
    requires |rows| >= 1
  {
    if |rows| == 1 then EscapedRecord(rows[0])
    else EscapedRecord(rows[0]) + ("\n" + EscapedText(rows[1..]))
  }

  lemma {:induction false} EscapedTextIsJoin(rows: seq<seq<string>>)
    requires |rows| >= 1
    ensures EscapedText(rows) == Join(MapEach(rows, EscapedRecord), "\n")
    decreases |rows|
  {
    if |rows| > 1 {
      var lines := MapEach(rows, EscapedRecord);
      assert Join(lines, "\n") == lines[0] + "\n" + Join(lines[1..], "\n");
      assert lines[1..] == MapEach(rows[1..], EscapedRecord) by {
        assert |lines[1..]| == |rows[1..]|;
      }
      EscapedTextIsJoin(rows[1..]);
    }
  }

  lemma {:induction false} ReadEscapedText(rows: seq<seq<string>>)
    requires |rows| >= 1
    requires forall i :: 0 <= i < |rows| ==> |rows[i]| >= 1
    ensures ReadRecords(EscapedText(rows)) == Some(rows)
    decreases |rows|
  {
    if |rows| == 1 {
      assert EscapedText(rows) == EscapedRecord(rows[0]) + "";
      ReadEscapedRecord(rows[0], "");
      assert rows == [rows[0]];
    } else {
      var more := EscapedText(rows[1..]);
      var x := EscapedRecord(rows[0]) + ("\n" + more);
      assert EscapedText(rows) == x;
      assert ReadRecords(x) == Some(rows) by {
        ReadEscapedRecord(rows[0], "\n" + more);
        ReadEscapedText(rows[1..]);
        ReadRecordsAfterRecord(x, rows[0], more, rows[1..]);
        assert [rows[0]] + rows[1..] == rows;
      }
    }
  }

  /** A record followed by a line feed and more records reads as one more
      record. */
  lemma ReadRecordsAfterRecord(x: string, r: seq<string>, more: string, rs: seq<seq<string>>)
    requires ReadRecord(x) == Some((r, "\n" + more))
    requires ReadRecords(more) == Some(rs)
    ensures ReadRecords(x) == Some([r] + rs)
  {
    assert ("\n" + more)[1..] == more;
  }

  /** Without quotes in the cells, bare quoting and escaping coincide. */
  lemma QuotedIsEscapedWithoutQuotes(cells: seq<string>)
    requires forall i :: 0 <= i < |cells| ==> '"' !in cells[i]
    ensures QuotedRecord(cells) == EscapedRecord(cells)
  {
    assert MapEach(cells, Quote) == MapEach(cells, EscapedField);
  }

  /** Splitting a joined list on a separator none of its parts contain gives
      the parts back. */
  lemma {:induction false} SplitJoin(parts: seq<string>, sep: char)
    requires |parts| >= 1
    requires forall i :: 0 <= i < |parts| ==> sep !in parts[i]
    ensures Split(Join(parts, [sep]), sep) == parts
    decreases |parts|
  {
    if |parts| == 1 {
      SplitPlain(parts[0], "", sep);
      assert parts[0] + "" == parts[0];
      assert Split("", sep) == [""];
    } else {
      var more := Join(parts[1..], [sep]);
      SplitJoin(parts[1..], sep);
      SplitPlain(parts[0], [sep] + more, sep);
      assert Join(parts, [sep]) == parts[0] + ([sep] + more);
      var sm := Split([sep] + more, sep);
      assert ([sep] + more)[1..] == more;
      assert sm == [""] + parts[1..];
      assert parts[0] + sm[0] == parts[0];
      assert [parts[0]] + parts[1..] == parts;
    }
  }

  /** A separator-free prefix glues onto the first part of what follows. */
  lemma {:induction false} SplitPlain(a: string, b: string, sep: char)
    requires sep !in a
    ensures Split(a + b, sep) == [a + Split(b, sep)[0]] + Split(b, sep)[1..]
    decreases |a|
  {
    var sb := Split(b, sep);
    if |a| > 0 {
      var rest := Split(a[1..] + b, sep);
      assert rest[0] == a[1..] + sb[0] && rest[1..] == sb[1..] by {
        assert sep !in a[1..];
        SplitPlain(a[1..], b, sep);
      }
      assert Split(a + b, sep) == [[a[0]] + rest[0]] + rest[1..] by {
        assert (a + b)[1..] == a[1..] + b;
        assert (a + b)[0] == a[0] && a[0] != sep;
      }
      assert [a[0]] + (a[1..] + sb[0]) == a + sb[0];
    } else {
      assert a + b == b;
      assert a + sb[0] == sb[0];
      assert [sb[0]] + sb[1..] == sb;
    }
  }
}
