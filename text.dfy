/** The JavaScript string operations the CSV code relies on: `split`, `join`, `trim`,
    `replace(/"/g, '')`, `toLowerCase` and `includes`. */
module Text {
  import Seqs

  /** `s.split(sep)` for a one-character separator: always at least one piece. */
  function Split(s: string, sep: char): (r: seq<string>)
    ensures |r| >= 1
    ensures forall k :: 0 <= k < |r| ==> sep !in r[k]
  {
    if s == [] then [""]
    else
      var rest := Split(s[1..], sep);
      if s[0] == sep then [""] + rest
      else [[s[0]] + rest[0]] + rest[1..]
  }

  /** `xs.join(sep)`. */
  function Join(xs: seq<string>, sep: char): string {
    if |xs| == 0 then ""
    else if |xs| == 1 then xs[0]
    else xs[0] + [sep] + Join(xs[1..], sep)
  }

  /** Splitting and joining again gives back the text. */
  lemma {:induction false} JoinSplit(s: string, sep: char)
    ensures Join(Split(s, sep), sep) == s
  {
    if s != [] {
      JoinSplit(s[1..], sep);
      var rest := Split(s[1..], sep);
      if s[0] == sep {
        assert Split(s, sep) == [""] + rest;
        assert ([""] + rest)[1..] == rest;
      } else {
        var r := Split(s, sep);
        assert r[0] == [s[0]] + rest[0] && r[1..] == rest[1..];
        if |rest| == 1 {
          assert s == [s[0]] + s[1..];
        } else {
          assert Join(rest, sep) == rest[0] + [sep] + Join(rest[1..], sep);
          assert s == [s[0]] + s[1..];
        }
      }
    }
  }

  lemma {:induction false} SplitNoSeparator(a: string, sep: char)
    requires sep !in a
    ensures Split(a, sep) == [a]
  {
    if a != [] {
      SplitNoSeparator(a[1..], sep);
      assert a == [a[0]] + a[1..];
    }
  }

  /** The first piece ends at the first separator. */
  lemma {:induction false} SplitAtSeparator(a: string, b: string, sep: char)
    requires sep !in a
    ensures Split(a + [sep] + b, sep) == [a] + Split(b, sep)
  {
    if a == [] {
      assert a + [sep] + b == [sep] + b;
      assert ([sep] + b)[1..] == b;
    } else {
      assert (a + [sep] + b)[1..] == a[1..] + [sep] + b;
      SplitAtSeparator(a[1..], b, sep);
      assert a == [a[0]] + a[1..];
    }
  }

  /** Joining pieces free of the separator and splitting again gives back the pieces. */
  lemma {:induction false} SplitJoin(xs: seq<string>, sep: char)
    requires |xs| >= 1
    requires forall k :: 0 <= k < |xs| ==> sep !in xs[k]
    ensures Split(Join(xs, sep), sep) == xs
  {
    if |xs| == 1 {
      SplitNoSeparator(xs[0], sep);
    } else {
      SplitJoin(xs[1..], sep);
      SplitAtSeparator(xs[0], Join(xs[1..], sep), sep);
    }
  }

  /** A joined text holds a separator only where the pieces put one or between two pieces. */
  lemma {:induction false} JoinFree(xs: seq<string>, sep: char, c: char)
    requires c != sep
    requires forall k :: 0 <= k < |xs| ==> c !in xs[k]
    ensures c !in Join(xs, sep)
  {
    if |xs| > 1 { JoinFree(xs[1..], sep, c); }
  }

  /** A joined text starts with the first piece's first character and ends with the last
      piece's last character. */
  lemma {:induction false} JoinEnds(xs: seq<string>, sep: char)
    requires |xs| >= 1 && forall k :: 0 <= k < |xs| ==> xs[k] != []
    ensures Join(xs, sep) != []
    ensures Join(xs, sep)[0] == xs[0][0]
    ensures Join(xs, sep)[|Join(xs, sep)| - 1] == xs[|xs| - 1][|xs[|xs| - 1]| - 1]
  {
    if |xs| > 1 {
      JoinEnds(xs[1..], sep);
    }
  }

  /** JavaScript's white space and line terminators, the characters `trim` removes. */
  predicate IsWhitespace(c: char) {
    c == ' ' || c == '\t' || c == '\n' || c == '\r' || c as int == 0x0B || c as int == 0x0C ||
    c as int == 0xA0 || c as int == 0x1680 || 0x2000 <= c as int <= 0x200A ||
    c as int == 0x2028 || c as int == 0x2029 || c as int == 0x202F || c as int == 0x205F ||
    c as int == 0x3000 || c as int == 0xFEFF
  }

  /** The number of white-space characters at the start of `s`. */
  function LeadingSpace(s: string): (n: nat)
    ensures n <= |s|
    ensures forall k :: 0 <= k < n ==> IsWhitespace(s[k])
    ensures n == |s| || !IsWhitespace(s[n])
  {
    if s != [] && IsWhitespace(s[0]) then
      var n := LeadingSpace(s[1..]);
      assert forall k :: 1 <= k < n + 1 ==> s[k] == s[1..][k - 1];
      n + 1
    else 0
  }

  /** The number of white-space characters at the end of `s`. */
  function TrailingSpace(s: string): (n: nat)
    ensures n <= |s|
    ensures forall k :: |s| - n <= k < |s| ==> IsWhitespace(s[k])
    ensures n == |s| || !IsWhitespace(s[|s| - n - 1])
  {
    if s != [] && IsWhitespace(s[|s| - 1]) then
      var n := TrailingSpace(s[..|s| - 1]);
      assert forall k :: |s| - 1 - n <= k < |s| - 1 ==> s[k] == s[..|s| - 1][k];
      n + 1
    else 0
  }

  /** `s.trimStart()`. */
  function TrimStart(s: string): string {
    s[LeadingSpace(s)..]
  }

  /** `s.trimEnd()`. */
  function TrimEnd(s: string): string {
    s[..|s| - TrailingSpace(s)]
  }

  /** `s.trim()`. */
  function Trim(s: string): string {
    TrimEnd(TrimStart(s))
  }

  /** Trimming a text that neither starts nor ends with white space changes nothing. */
  lemma TrimUnchanged(s: string)
    requires s == [] || (!IsWhitespace(s[0]) && !IsWhitespace(s[|s| - 1]))
    ensures Trim(s) == s
  {
  }

  /** `s.replace(/c/g, '')` for a single character `c`. */
  function RemoveAll(s: string, c: char): (r: string)
    ensures c !in r
    ensures |r| <= |s|
    ensures c !in s ==> r == s
  {
    if s == [] then []
    else (if s[0] == c then [] else [s[0]]) + RemoveAll(s[1..], c)
  }

  lemma {:induction false} RemoveAllConcat(a: string, b: string, c: char)
    ensures RemoveAll(a + b, c) == RemoveAll(a, c) + RemoveAll(b, c)
  {
    if a == [] {
      assert a + b == b;
    } else {
      assert (a + b)[1..] == a[1..] + b;
      RemoveAllConcat(a[1..], b, c);
    }
  }

  /** `"${f}"`: the text between double quotes, with no escaping. */
  function Quote(f: string): string {
    "\"" + f + "\""
  }

  /** Taking the quote characters out of a quoted field without quotes gives back the field. */
  lemma UnquoteQuote(f: string)
    requires '"' !in f
    ensures RemoveAll(Quote(f), '"') == f
  {
    RemoveAllConcat("\"" + f, "\"", '"');
    RemoveAllConcat("\"", f, '"');
  }

  /** `toLowerCase`, restricted to the ASCII letters. */
  function LowerChar(c: char): char {
    if 'A' <= c <= 'Z' then (c as int + 32) as char else c
  }

  function ToLower(s: string): (r: string)
    ensures |r| == |s|
    ensures forall k :: 0 <= k < |s| ==> r[k] == LowerChar(s[k])
  {
    seq(|s|, k requires 0 <= k < |s| => LowerChar(s[k]))
  }

  /** `needle` is a prefix of `s`. */
  predicate StartsWith(s: string, needle: string) {
    |needle| <= |s| && s[..|needle|] == needle
  }

  /** `needle` occurs in `s` starting at position `i`. */
  predicate OccursAt(s: string, needle: string, i: int) {
    0 <= i && i + |needle| <= |s| && s[i..i + |needle|] == needle
  }

  /** `s.includes(needle)`: `needle` occurs at some position of `s`. */
  function Contains(s: string, needle: string): (r: bool)
    ensures r <==> exists i :: OccursAt(s, needle, i)
  {
    if StartsWith(s, needle) then
      assert OccursAt(s, needle, 0);
      true
    else if s == [] then false
    else
      var r := Contains(s[1..], needle);
      if r then
        var i :| OccursAt(s[1..], needle, i);
        assert OccursAt(s, needle, i + 1);
        true
      else
        forall i | 0 < i
          ensures OccursAt(s, needle, i) == OccursAt(s[1..], needle, i - 1)
        {
          if i + |needle| <= |s| {
            var a, b := s[1..][i - 1..i - 1 + |needle|], s[i..i + |needle|];
            assert forall k :: 0 <= k < |a| ==> a[k] == b[k];
            assert a == b;
          }
        }
        assert |needle| <= |s| ==> s[0..|needle|] == s[..|needle|];
        false
  }

  /** The decimal digits of `n`, as `${n}` writes them. */
  function NatToString(n: nat): (r: string)
    ensures r != []
    ensures forall k :: 0 <= k < |r| ==> '0' <= r[k] <= '9'
  {
    if n < 10 then [('0' as int + n) as char]
    else NatToString(n / 10) + [('0' as int + n % 10) as char]
  }

  /** Reading the digits back gives `n`: the decimal writing loses nothing. */
  function DigitsValue(s: string): int {
    if s == [] then 0 else DigitsValue(s[..|s| - 1]) * 10 + (s[|s| - 1] as int - '0' as int)
  }

  lemma {:induction false} NatToStringValue(n: nat)
    ensures DigitsValue(NatToString(n)) == n
  {
    if n >= 10 {
      NatToStringValue(n / 10);
      var r := NatToString(n);
      assert r[..|r| - 1] == NatToString(n / 10);
    }
  }

  /** A header line followed by data lines, none holding the separator, splits back into them. */
  lemma SplitJoinHeader(header: string, rows: seq<string>, sep: char)
    requires sep !in header
    requires forall k :: 0 <= k < |rows| ==> sep !in rows[k]
    ensures Split(Join([header] + rows, sep), sep) == [header] + rows
  {
    var lines := [header] + rows;
    assert forall k :: 1 <= k < |lines| ==> lines[k] == rows[k - 1];
    SplitJoin(lines, sep);
  }

  /** One CSV line: every field between double quotes, joined by commas. */
  function CsvLine(fields: seq<string>): string {
    Join(Seqs.Map(fields, Quote), ',')
  }

  /** A CSV line has no newline and neither starts nor ends with white space. */
  lemma CsvLineShape(fields: seq<string>)
    requires |fields| >= 1
    requires forall k :: 0 <= k < |fields| ==> '\n' !in fields[k]
    ensures '\n' !in CsvLine(fields)
    ensures Trim(CsvLine(fields)) == CsvLine(fields)
  {
    var quoted := Seqs.Map(fields, Quote);
    forall k | 0 <= k < |quoted| ensures '\n' !in quoted[k] && quoted[k] != [] && quoted[k][0] == '"' &&
                                         quoted[k][|quoted[k]| - 1] == '"' {
      assert quoted[k] == "\"" + fields[k] + "\"";
    }
    JoinFree(quoted, ',', '\n');
    JoinEnds(quoted, ',');
    TrimUnchanged(CsvLine(fields));
  }
}
