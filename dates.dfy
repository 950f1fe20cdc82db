/** Calendar dates as the application stores them: `YYYY-MM-DD` text from a date input, or
    the empty text of an input left blank. `new Date(a) < new Date(b)` on two such texts orders
    them as the text orders them, and the empty text is an Invalid Date, whose time is NaN, so
    every comparison with it is false. Every other text is treated as invalid too. */
module Dates {
  import opened Wrappers

  predicate IsDigit(c: char) {
    '0' <= c <= '9'
  }

  function DigitValue(c: char): int {
    c as int - '0' as int
  }

  /** `YYYY-MM-DD` with a month from 01 to 12 and a day from 01 to 31. */
  predicate IsIsoDate(d: string) {
    |d| == 10 && d[4] == '-' && d[7] == '-' &&
    IsDigit(d[0]) && IsDigit(d[1]) && IsDigit(d[2]) && IsDigit(d[3]) &&
    IsDigit(d[5]) && IsDigit(d[6]) && IsDigit(d[8]) && IsDigit(d[9]) &&
    1 <= DigitValue(d[5]) * 10 + DigitValue(d[6]) <= 12 &&
    1 <= DigitValue(d[8]) * 10 + DigitValue(d[9]) <= 31
  }

  /** JavaScript's `<` on strings: code unit by code unit, a proper prefix first. */
  predicate LexLess(a: string, b: string) {
    if a == [] then b != []
    else if b == [] then false
    else a[0] < b[0] || (a[0] == b[0] && LexLess(a[1..], b[1..]))
  }

  lemma {:induction false} LexLessIrreflexive(a: string)
    ensures !LexLess(a, a)
  {
    if a != [] { LexLessIrreflexive(a[1..]); }
  }

  lemma {:induction false} LexLessTransitive(a: string, b: string, c: string)
    requires LexLess(a, b) && LexLess(b, c)
    ensures LexLess(a, c)
  {
    if a != [] && b != [] && c != [] && a[0] == b[0] == c[0] {
      LexLessTransitive(a[1..], b[1..], c[1..]);
    }
  }

  lemma {:induction false} LexLessTotal(a: string, b: string)
    ensures a == b || LexLess(a, b) || LexLess(b, a)
  {
    if a != [] && b != [] && a[0] == b[0] {
      LexLessTotal(a[1..], b[1..]);
      if a[1..] == b[1..] {
        assert a == [a[0]] + a[1..] && b == [b[0]] + b[1..];
      }
    }
  }

  /** Not after: the text order's `<=`. */
  lemma LexNotLessTransitive(a: string, b: string, c: string)
    requires !LexLess(b, a) && !LexLess(c, b)
    ensures !LexLess(c, a)
  {
    LexLessTotal(a, b);
    if LexLess(c, a) {
      if LexLess(a, b) { LexLessTransitive(c, a, b); }
    }
  }

  /** `new Date(a) < new Date(b)`. */
  predicate Before(a: string, b: string) {
    IsIsoDate(a) && IsIsoDate(b) && LexLess(a, b)
  }

  /** An optional date field read as text: `undefined` becomes the Invalid Date `""`. */
  function DateText(d: Option<string>): string {
    d.GetOr("")
  }

  /** `!d`: the field is missing or empty. */
  predicate Blank(d: Option<string>) {
    d.None? || d.value == ""
  }
}
