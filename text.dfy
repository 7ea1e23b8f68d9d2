/** String helpers with the meaning JavaScript gives them: the `\s` and `\d`
    character classes, `String.prototype.trim`, `Array.prototype.join`,
    `String.prototype.split` on one character, number-to-string conversion
    and the `\S+@\S+\.\S+` e-mail test used by both booking forms. */
module Text {

  /** JavaScript's `\s` class (also the set `trim` removes): the ASCII
      blanks, no-break space, BOM and the Unicode space separators. */
  predicate IsSpace(c: char)
  {
    c == ' ' || c == '\t' || c == '\n' || c == '\r' || c == '\U{000B}' || c == '\U{000C}'
    || c == '\U{00A0}' || c == '\U{1680}' || ('\U{2000}' <= c <= '\U{200A}')
    || c == '\U{2028}' || c == '\U{2029}' || c == '\U{202F}' || c == '\U{205F}'
    || c == '\U{3000}' || c == '\U{FEFF}'
  }

  /** JavaScript's `\d` and `[0-9]`: ASCII digits only. */
  predicate IsDigit(c: char)
  {
    '0' <= c <= '9'
  }

  predicate AllDigits(s: string)
  {
    forall i | 0 <= i < |s| :: IsDigit(s[i])
  }

  /** `s.replace(/\s+/g, '')`: a single blank goes, any other single
      character stays; with `StripSpacesConcat` (the result of a
      concatenation is the concatenation of the results) this fixes the
      result on every string. */
  function StripSpaces(s: string): (r: string)
    ensures |r| <= |s|
    ensures forall i | 0 <= i < |r| :: !IsSpace(r[i])
    ensures |s| == 1 ==> r == (if IsSpace(s[0]) then [] else s)
  {
    if s == [] then []
    else if IsSpace(s[0]) then StripSpaces(s[1..])
    else [s[0]] + StripSpaces(s[1..])
  }

  /** `s.replace(/[^0-9]/gi, '')`: a single digit stays, any other single
      character goes; with `KeepDigitsConcat` this fixes the result on every
      string. */
  function KeepDigits(s: string): (r: string)
    ensures |r| <= |s|
    ensures AllDigits(r)
    ensures |s| == 1 ==> r == (if IsDigit(s[0]) then s else [])
  {
    if s == [] then []
    else if IsDigit(s[0]) then [s[0]] + KeepDigits(s[1..])
    else KeepDigits(s[1..])
  }

  lemma {:induction false} StripSpacesConcat(a: string, b: string)
    ensures StripSpaces(a + b) == StripSpaces(a) + StripSpaces(b)
  {
    if a != [] {
      assert (a + b)[0] == a[0] && (a + b)[1..] == a[1..] + b;
      StripSpacesConcat(a[1..], b);
    } else {
      assert a + b == b;
    }
  }

  lemma {:induction false} KeepDigitsConcat(a: string, b: string)
    ensures KeepDigits(a + b) == KeepDigits(a) + KeepDigits(b)
  {
    if a != [] {
      assert (a + b)[0] == a[0] && (a + b)[1..] == a[1..] + b;
      KeepDigitsConcat(a[1..], b);
    } else {
      assert a + b == b;
    }
  }

  /** A string of digits survives both filters unchanged. */
  lemma {:induction false} DigitsSurviveFilters(d: string)
    requires AllDigits(d)
    ensures StripSpaces(d) == d && KeepDigits(d) == d
  {
    if d != [] {
      assert IsDigit(d[0]) && !IsSpace(d[0]);
      DigitsSurviveFilters(d[1..]);
      assert d == [d[0]] + d[1..];
    }
  }

  /** Leading whitespace removed. */
  function TrimStart(s: string): (r: string)
    ensures |r| <= |s| && r == s[|s| - |r|..]
    ensures r != [] ==> !IsSpace(r[0])
    ensures forall k | 0 <= k < |s| - |r| :: IsSpace(s[k])
  {
    if s != [] && IsSpace(s[0]) then TrimStart(s[1..]) else s
  }

  /** Trailing whitespace removed. */
  function TrimEnd(s: string): (r: string)
    ensures |r| <= |s| && r == s[..|r|]
    ensures r != [] ==> !IsSpace(r[|r| - 1])
    ensures forall k | |r| <= k < |s| :: IsSpace(s[k])
  {
    if s != [] && IsSpace(s[|s| - 1]) then TrimEnd(s[..|s| - 1]) else s
  }

  /** No whitespace at either end. */
  predicate NoOuterSpace(s: string)
  {
    s == [] || (!IsSpace(s[0]) && !IsSpace(s[|s| - 1]))
  }

  /** `String.prototype.trim`, which Mongoose applies to `trim: true`
      fields: the middle of `s` with only whitespace cut from either end,
      and no whitespace left at either end. */
  function Trim(s: string): (r: string)
    ensures |r| <= |s|
    ensures NoOuterSpace(r)
    ensures exists i, j | 0 <= i <= j <= |s| :: SpaceCutSlice(s, r, i, j)
  {
    var t := TrimStart(s);
    var r := TrimEnd(t);
    assert r != [] ==> r[0] == t[0];
    TrimEndInSlice(s, t, r);
    assert SpaceCutSlice(s, r, |s| - |t|, |s| - |t| + |r|);
    r
  }

  /** `r` is `s[i..j]`, and only whitespace lies outside it. */
  predicate SpaceCutSlice(s: string, r: string, i: int, j: int)
    requires 0 <= i <= j <= |s|
  {
    && r == s[i..j]
    && (forall k | 0 <= k < i :: IsSpace(s[k]))
    && (forall k | j <= k < |s| :: IsSpace(s[k]))
  }

  /** The trailing cut of a suffix `t` of `s` is a slice of `s`, with only
      whitespace after it. */
  lemma TrimEndInSlice(s: string, t: string, r: string)
    requires |t| <= |s| && t == s[|s| - |t|..]
    requires |r| <= |t| && r == t[..|r|]
    requires forall k | |r| <= k < |t| :: IsSpace(t[k])
    ensures r == s[|s| - |t|..|s| - |t| + |r|]
    ensures forall k | |s| - |t| + |r| <= k < |s| :: IsSpace(s[k])
  {
    var i := |s| - |t|;
    assert forall k | i <= k < |s| :: s[k] == t[k - i];
  }

  lemma {:induction false} TrimStartFixed(s: string)
    requires s == [] || !IsSpace(s[0])
    ensures TrimStart(s) == s
  {
  }

  lemma {:induction false} TrimEndFixed(s: string)
    requires s == [] || !IsSpace(s[|s| - 1])
    ensures TrimEnd(s) == s
  {
  }

  /** Trimming leaves exactly the strings without outer whitespace
      unchanged. */
  lemma {:induction false} TrimFixedExactly(s: string)
    ensures Trim(s) == s <==> NoOuterSpace(s)
  {
    if NoOuterSpace(s) {
      TrimStartFixed(s);
      TrimEndFixed(s);
    }
  }

  /** Trimming twice is trimming once. */
  lemma {:induction false} TrimIdempotent(s: string)
    ensures Trim(Trim(s)) == Trim(s)
  {
    TrimFixedExactly(Trim(s));
  }

  /** `parts.join(sep)`. */
  function Join(parts: seq<string>, sep: string): string
  {
    if parts == [] then ""
    else if |parts| == 1 then parts[0]
    else parts[0] + sep + Join(parts[1..], sep)
  }

  /** The parts glued together with nothing between them. */
  function Concat(parts: seq<string>): (r: string)
    ensures |parts| == 1 ==> r == parts[0]
  {
    if parts == [] then "" else parts[0] + Concat(parts[1..])
  }

  /** Cutting a prefix off a concatenation gives back the rest. */
  lemma SuffixAfterPrefix(p: string, x: string)
    ensures (p + x)[|p|..] == x
  {
  }

  lemma AllDigitsConcat(a: string, b: string)
    requires AllDigits(a) && AllDigits(b)
    ensures AllDigits(a + b)
  {
    forall k | 0 <= k < |a + b| ensures IsDigit((a + b)[k]) {
      if k < |a| {
        assert (a + b)[k] == a[k];
      } else {
        assert (a + b)[k] == b[k - |a|];
      }
    }
  }

  /** Removing the blanks of a blank-joined list of digit strings leaves
      their concatenation. */
  lemma {:induction false} StripJoinedDigits(parts: seq<string>)
    requires forall i | 0 <= i < |parts| :: AllDigits(parts[i])
    ensures StripSpaces(Join(parts, " ")) == Concat(parts)
    ensures AllDigits(Concat(parts))
  {
    if |parts| == 1 {
      DigitsSurviveFilters(parts[0]);
    } else if |parts| > 1 {
      StripJoinedDigits(parts[1..]);
      var rest := Join(parts[1..], " ");
      assert Join(parts, " ") == parts[0] + (" " + rest);
      StripSpacesConcat(parts[0], " " + rest);
      StripSpacesConcat(" ", rest);
      DigitsSurviveFilters(parts[0]);
      assert StripSpaces(" ") == "";
      assert "" + StripSpaces(rest) == StripSpaces(rest);
      AllDigitsConcat(parts[0], Concat(parts[1..]));
    }
  }

  /** `s.split(c)` for a one-character separator: the pieces between
      occurrences of `c`, so there is always at least one piece. */
  function Split(s: string, c: char): (r: seq<string>)
    ensures |r| >= 1
  {
    if s == [] then [""]
    else
      var rest := Split(s[1..], c);
      if s[0] == c then [""] + rest
      else [[s[0]] + rest[0]] + rest[1..]
  }

  lemma {:induction false} SplitPrefix(x: string, t: string, c: char)
    requires c !in x
    ensures Split(x + t, c) == [x + Split(t, c)[0]] + Split(t, c)[1..]
  {
    if x == [] {
      var st := Split(t, c);
      assert x + t == t && x + st[0] == st[0];
      assert st == [st[0]] + st[1..];
    } else {
      assert (x + t)[0] == x[0] && (x + t)[1..] == x[1..] + t;
      SplitPrefix(x[1..], t, c);
      var r := Split(x[1..] + t, c);
      var st := Split(t, c);
      assert r[0] == x[1..] + st[0] && r[1..] == st[1..];
      assert Split(x + t, c) == [[x[0]] + r[0]] + r[1..];
      assert [x[0]] + (x[1..] + st[0]) == x + st[0];
    }
  }

  /** Splitting a join on a separator that occurs in no part gives the parts
      back: `join` and `split` are inverses on separator-free fields. */
  lemma {:induction false} SplitJoin(parts: seq<string>, c: char)
    requires |parts| >= 1
    requires forall i | 0 <= i < |parts| :: c !in parts[i]
    ensures Split(Join(parts, [c]), c) == parts
  {
    var x := parts[0];
    if |parts| == 1 {
      SplitPrefix(x, "", c);
      assert x + "" == x;
    } else {
      var j := Join(parts[1..], [c]);
      assert Join(parts, [c]) == x + ([c] + j);
      SplitPrefix(x, [c] + j, c);
      assert ([c] + j)[0] == c && ([c] + j)[1..] == j;
      SplitJoin(parts[1..], c);
      assert Split([c] + j, c) == [""] + parts[1..];
      assert x + "" == x;
      assert [x] + parts[1..] == parts;
    }
  }

  /** A character occurs in a join only if it is the separator's or a part's. */
  lemma {:induction false} JoinAvoids(parts: seq<string>, sep: string, c: char)
    requires c !in sep
    requires forall i | 0 <= i < |parts| :: c !in parts[i]
    ensures c !in Join(parts, sep)
  {
    if |parts| > 1 {
      JoinAvoids(parts[1..], sep, c);
    }
  }

  function DigitChar(d: nat): (c: char)
    requires d < 10
    ensures IsDigit(c)
  {
    ['0', '1', '2', '3', '4', '5', '6', '7', '8', '9'][d]
  }

  /** `String(n)` for a non-negative integer: its decimal digits. */
  function NatToString(n: nat): (r: string)
    ensures |r| >= 1 && AllDigits(r)
  {
    if n < 10 then [DigitChar(n)] else NatToString(n / 10) + [DigitChar(n % 10)]
  }

  /** `String(n)` for an integer. */
  function IntToString(n: int): (r: string)
    ensures |r| >= 1
    ensures forall i | 0 <= i < |r| :: IsDigit(r[i]) || r[i] == '-'
  {
    if n < 0 then "-" + NatToString(-n) else NatToString(n)
  }

  /** `s.replace(/"/g, '""')`: every double quote doubled. */
  function DoubleQuotes(s: string): (r: string)
    ensures |r| >= |s|
  {
    if s == [] then ""
    else if s[0] == '"' then "\"\"" + DoubleQuotes(s[1..])
    else [s[0]] + DoubleQuotes(s[1..])
  }

  /** The inverse reading of a doubled-quote field: `""` back to `"`. */
  function UndoubleQuotes(s: string): string
  {
    if |s| >= 2 && s[0] == '"' && s[1] == '"' then "\"" + UndoubleQuotes(s[2..])
    else if s == [] then ""
    else [s[0]] + UndoubleQuotes(s[1..])
  }

  /** Doubling is undone by undoubling, so the escaping loses nothing. */
  lemma {:induction false} UndoubleDouble(s: string)
    ensures UndoubleQuotes(DoubleQuotes(s)) == s
  {
    if s != [] {
      UndoubleDouble(s[1..]);
      if s[0] == '"' {
        assert ("\"\"" + DoubleQuotes(s[1..]))[2..] == DoubleQuotes(s[1..]);
      } else {
        var d := DoubleQuotes(s[1..]);
        assert ([s[0]] + d)[1..] == d;
        if s[1..] != [] && s[1] == '"' {
          assert d[0] == '"';
        }
      }
      assert s == [s[0]] + s[1..];
    }
  }

  /** After doubling, every quote stands in a pair: an odd run of quotes can
      only come from the quoting around the field. */
  lemma {:induction false} DoubledQuotesPaired(s: string, i: nat)
    requires i < |DoubleQuotes(s)| && DoubleQuotes(s)[i] == '"'
    ensures (i + 1 < |DoubleQuotes(s)| && DoubleQuotes(s)[i + 1] == '"')
         || (i >= 1 && DoubleQuotes(s)[i - 1] == '"')
  {
    if s[0] == '"' {
      if i >= 2 {
        DoubledQuotesPaired(s[1..], i - 2);
      }
    } else {
      DoubledQuotesPaired(s[1..], i - 1);
    }
  }

  /** JavaScript's unanchored `/\S+@\S+\.\S+/.test(s)`: somewhere in `s` a
      non-space character, then `@`, then a non-empty run of non-space
      characters, then `.`, then a non-space character. */
  predicate IsEmailLike(s: string)
  {
    exists at, dot | 0 < at < |s| && at + 1 < dot < |s| - 1 ::
      EmailShapeAt(s, at, dot)
  }

  predicate EmailShapeAt(s: string, at: int, dot: int)
    requires 0 < at && at + 1 < dot < |s| - 1
  {
    && !IsSpace(s[at - 1]) && s[at] == '@'
    && (forall k | at < k < dot :: !IsSpace(s[k]))
    && s[dot] == '.' && !IsSpace(s[dot + 1])
  }

  /** Any address of the form local@domain.tld with non-empty, blank-free
      parts passes the e-mail test. */
  lemma EmailLikeAccepts(local: string, domain: string, tld: string)
    requires local != [] && domain != [] && tld != []
    requires forall i | 0 <= i < |local| :: !IsSpace(local[i])
    requires forall i | 0 <= i < |domain| :: !IsSpace(domain[i])
    requires forall i | 0 <= i < |tld| :: !IsSpace(tld[i])
    ensures IsEmailLike(local + "@" + domain + "." + tld)
  {
    var s := local + "@" + domain + "." + tld;
    var at := |local|;
    var dot := |local| + 1 + |domain|;
    assert s[at - 1] == local[at - 1];
    assert forall k | at < k < dot :: s[k] == domain[k - at - 1];
    assert s[dot + 1] == tld[0];
    assert EmailShapeAt(s, at, dot);
  }

  /** A string without `@` never passes the e-mail test. */
  lemma EmailLikeNeedsAt(s: string)
    requires '@' !in s
    ensures !IsEmailLike(s)
  {
  }
}
