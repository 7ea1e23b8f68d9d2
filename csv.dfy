/** Comma-separated rows as the admin dashboard writes them: plain rows
    (`row.join(',')`) and fully quoted rows (`"f1","f2",…`), lines joined by
    a newline. `ParseQuotedRow` is an independent reader for the quoted
    form, following the convention of section 2 of RFC 4180 (a field in
    double quotes, a doubled quote standing for one quote, fields separated
    by commas); it is what the quoted writer is proved against. */
module Csv {
  import opened Wrappers
  import opened Text

  /** `'"' + cells.join('","') + '"'`. */
  function QuotedLine(cells: seq<string>): (r: string)
    ensures |r| >= 2 && r[0] == '"' && r[|r| - 1] == '"'
  {
    "\"" + Join(cells, "\",\"") + "\""
  }

  /** Every cell with its quotes doubled. */
  function EscapeAll(cells: seq<string>): (r: seq<string>)
    ensures |r| == |cells|
    ensures forall i | 0 <= i < |cells| :: r[i] == DoubleQuotes(cells[i])
  {
    if cells == [] then [] else [DoubleQuotes(cells[0])] + EscapeAll(cells[1..])
  }

  /** Reads the body of a quoted field whose opening quote is already
      consumed: the field's text and what follows its closing quote, or
      `None` when the closing quote is missing. */
  function ReadQuoted(s: string): (r: Option<(string, string)>)
    ensures r.Some? ==> |r.value.1| < |s|
  {
    if s == [] then None
    else if s[0] == '"' then
      if |s| >= 2 && s[1] == '"' then
        match ReadQuoted(s[2..])
        case None => None
        case Some(p) => Some(("\"" + p.0, p.1))
      else Some(("", s[1..]))
    else
      match ReadQuoted(s[1..])
      case None => None
      case Some(p) => Some(([s[0]] + p.0, p.1))
  }

  /** Reads a whole line of quoted fields; `None` when the line is not of
      that form. */
  function ParseQuotedRow(s: string): (r: Option<seq<string>>)
    ensures r.Some? ==> |r.value| >= 1
    decreases |s|
  {
    if s == [] || s[0] != '"' then None
    else
      match ReadQuoted(s[1..])
      case None => None
      case Some(p) =>
        if p.1 == [] then Some([p.0])
        else if p.1[0] != ',' then None
        else
          match ParseQuotedRow(p.1[1..])
          case None => None
          case Some(rest) => Some([p.0] + rest)
  }

  /** A doubled field followed by its closing quote reads back as the
      field, whatever comes after that quote (unless another quote, which
      would make the closing quote look doubled). */
  lemma {:induction false} ReadDoubled(x: string, t: string)
    requires t == [] || t[0] != '"'
    ensures ReadQuoted(DoubleQuotes(x) + "\"" + t) == Some((x, t))
  {
    var s := DoubleQuotes(x) + "\"" + t;
    if x == [] {
      assert s == "\"" + t && s[1..] == t;
    } else if x[0] == '"' {
      ReadDoubled(x[1..], t);
      assert s == "\"\"" + (DoubleQuotes(x[1..]) + "\"" + t);
      assert s[2..] == DoubleQuotes(x[1..]) + "\"" + t;
      assert "\"" + x[1..] == x;
    } else {
      ReadDoubled(x[1..], t);
      assert s == [x[0]] + (DoubleQuotes(x[1..]) + "\"" + t);
      assert s[1..] == DoubleQuotes(x[1..]) + "\"" + t;
      assert [x[0]] + x[1..] == x;
    }
  }

  /** How a quoted line of two or more cells starts: the first cell, its
      closing quote, a comma, and the quoted line of the remaining cells. */
  lemma QuotedLineCons(esc: seq<string>)
    requires |esc| >= 2
    ensures QuotedLine(esc)[1..] == esc[0] + "\"" + ("," + QuotedLine(esc[1..]))
  {
    assert Join(esc, "\",\"") == esc[0] + "\",\"" + Join(esc[1..], "\",\"");
  }

  /** The quoted writer and the reader are inverses: a row written with
      every cell escaped reads back as the original cells. */
  lemma {:induction false} ParseQuotedLine(cells: seq<string>)
    requires |cells| >= 1
    ensures ParseQuotedRow(QuotedLine(EscapeAll(cells))) == Some(cells)
  {
    var esc := EscapeAll(cells);
    var line := QuotedLine(esc);
    if |cells| == 1 {
      ReadDoubled(cells[0], "");
      assert Join(esc, "\",\"") == esc[0];
      assert line[1..] == esc[0] + "\"" + "";
      assert ParseQuotedRow(line) == Some([cells[0]]);
      assert [cells[0]] == cells;
    } else {
      var tail := QuotedLine(EscapeAll(cells[1..]));
      assert EscapeAll(cells[1..]) == esc[1..];
      QuotedLineCons(esc);
      ReadDoubled(cells[0], "," + tail);
      assert ("," + tail)[1..] == tail;
      ParseQuotedLine(cells[1..]);
      assert [cells[0]] + cells[1..] == cells;
    }
  }

  /** A cell without quotes is written as it is. */
  lemma {:induction false} NoQuotesUnchanged(s: string)
    requires '"' !in s
    ensures DoubleQuotes(s) == s
  {
    if s != [] {
      NoQuotesUnchanged(s[1..]);
      assert [s[0]] + s[1..] == s;
    }
  }

  /** A newline can only be in a quoted line through one of its cells. */
  lemma QuotedLineAvoids(cells: seq<string>, c: char)
    requires c != '"' && c != ','
    requires forall i | 0 <= i < |cells| :: c !in cells[i]
    ensures c !in QuotedLine(cells)
  {
    JoinAvoids(cells, "\",\"", c);
  }
  /** One step of `ReadQuoted` over a character that is not a quote. */
  lemma ReadPlain(c: char, s: string)
    requires c != '"'
    ensures ReadQuoted([c] + s)
         == (match ReadQuoted(s) case None => None case Some(p) => Some(([c] + p.0, p.1)))
  {
    assert ([c] + s)[1..] == s;
  }

  /** One step of `ReadQuoted` over a doubled quote. */
  lemma ReadPair(s: string)
    ensures ReadQuoted("\"\"" + s)
         == (match ReadQuoted(s) case None => None case Some(p) => Some(("\"" + p.0, p.1)))
  {
    assert ("\"\"" + s)[2..] == s;
  }

  /** Doubling quotes adds no other character. */
  lemma {:induction false} DoubleQuotesAvoids(s: string, c: char)
    requires c != '"' && c !in s
    ensures c !in DoubleQuotes(s)
  {
    if s != [] {
      DoubleQuotesAvoids(s[1..], c);
    }
  }
}
