/**
 * The two pieces of string handling the search endpoint relies on:
 * `String.prototype.split("\n")`, which cuts a file's content into lines, and
 * the decimal rendering of a number inside a template literal, which writes the
 * line and column of a match.
 */
module Text {

  import opened Optional

  /** True when `s` holds no line terminator `'\n'`. */
  predicate NoNewline(s: string) {
    forall k :: 0 <= k < |s| ==> s[k] != '\n'
  }

  /**
   * `s.split("\n")`: the pieces of `s` between newline characters, in order.
   * The empty string is one empty line, and a trailing newline yields a final
   * empty line; a carriage return stays part of its line.
   */
  function Split(s: string): (lines: seq<string>)
    ensures |lines| >= 1
    ensures forall k :: 0 <= k < |lines| ==> NoNewline(lines[k])
    decreases |s|
  {
    if s == [] then [""]
    else if s[0] == '\n' then [""] + Split(s[1..])
    else
      var rest := Split(s[1..]);
      [[s[0]] + rest[0]] + rest[1..]
  }

  /** `lines.join("\n")`: the inverse of `Split`. */
  function Join(lines: seq<string>): string
    requires |lines| >= 1
    decreases |lines|
  {
    if |lines| == 1 then lines[0] else lines[0] + "\n" + Join(lines[1..])
  }

  /** Splitting and joining back gives the content unchanged: no character is lost or added. */
  lemma {:induction false} JoinSplit(s: string)
    ensures Join(Split(s)) == s
    decreases |s|
  {
    if s == [] {
    } else if s[0] == '\n' {
      JoinSplit(s[1..]);
      assert Split(s)[1..] == Split(s[1..]);
    } else {
      var rest := Split(s[1..]);
      JoinSplit(s[1..]);
      if |rest| == 1 {
        assert Split(s) == [[s[0]] + rest[0]];
      } else {
        assert Split(s)[1..] == rest[1..];
        calc {
          Join(Split(s));
          ([s[0]] + rest[0]) + "\n" + Join(rest[1..]);
          [s[0]] + (rest[0] + "\n" + Join(rest[1..]));
          [s[0]] + Join(rest);
          s;
        }
      }
    }
  }

  /** A text without newline is a single line. */
  lemma {:induction false} SplitSingleLine(s: string)
    requires NoNewline(s)
    ensures Split(s) == [s]
    decreases |s|
  {
    if s != [] {
      SplitSingleLine(s[1..]);
      assert [s[0]] + s[1..] == s;
    }
  }

  /** The text up to the first newline is the first line, and the rest is split on its own. */
  lemma {:induction false} SplitAtFirstNewline(a: string, t: string)
    requires NoNewline(a)
    ensures Split(a + "\n" + t) == [a] + Split(t)
    decreases |a|
  {
    var s := a + "\n" + t;
    if a == [] {
      assert s[1..] == t;
    } else {
      assert s[1..] == a[1..] + "\n" + t;
      SplitAtFirstNewline(a[1..], t);
      assert [s[0]] + a[1..] == a;
    }
  }

  /** Joining lines that hold no newline and splitting again gives back the same lines. */
  lemma {:induction false} SplitJoin(lines: seq<string>)
    requires |lines| >= 1
    requires forall k :: 0 <= k < |lines| ==> NoNewline(lines[k])
    ensures Split(Join(lines)) == lines
    decreases |lines|
  {
    if |lines| == 1 {
      SplitSingleLine(lines[0]);
    } else {
      SplitJoin(lines[1..]);
      SplitAtFirstNewline(lines[0], Join(lines[1..]));
      assert [lines[0]] + lines[1..] == lines;
    }
  }

  /** The character for a decimal digit. */
  function DigitChar(d: nat): (c: char)
    requires d < 10
    ensures '0' <= c <= '9' && c as int - '0' as int == d
  {
    (d + '0' as int) as char
  }

  /** True when `s` is a non-empty run of decimal digits. */
  predicate IsNumeral(s: string) {
    |s| >= 1 && forall k :: 0 <= k < |s| ==> '0' <= s[k] <= '9'
  }

  /** True when `s` is a numeral without a superfluous leading zero. */
  predicate IsCanonicalNumeral(s: string) {
    IsNumeral(s) && (s[0] == '0' ==> |s| == 1)
  }

  /** `${n}` for a non-negative integer: its shortest decimal numeral. */
  function Decimal(n: nat): (s: string)
    ensures IsCanonicalNumeral(s)
    decreases n
  {
    if n < 10 then [DigitChar(n)] else Decimal(n / 10) + [DigitChar(n % 10)]
  }

  /** The value of a decimal numeral. */
  function ParseDecimal(s: string): nat
    requires IsNumeral(s)
    decreases |s|
  {
    var d := s[|s| - 1] as int - '0' as int;
    if |s| == 1 then d else ParseDecimal(s[..|s| - 1]) * 10 + d
  }

  /** Reading back a rendered number gives the number. */
  lemma {:induction false} ParseDecimalOfDecimal(n: nat)
    ensures ParseDecimal(Decimal(n)) == n
    decreases n
  {
    if n >= 10 {
      ParseDecimalOfDecimal(n / 10);
      var s := Decimal(n);
      assert s[..|s| - 1] == Decimal(n / 10);
    }
  }

  /** A numeral that does not start with `'0'` has a positive value. */
  lemma {:induction false} ParseDecimalPositive(s: string)
    requires IsNumeral(s) && s[0] != '0'
    ensures ParseDecimal(s) >= 1
    decreases |s|
  {
    if |s| > 1 {
      ParseDecimalPositive(s[..|s| - 1]);
    }
  }

  /** Rendering the value of a canonical numeral gives the numeral back: `Decimal` is onto them. */
  lemma {:induction false} DecimalOfParseDecimal(s: string)
    requires IsCanonicalNumeral(s)
    ensures Decimal(ParseDecimal(s)) == s
    decreases |s|
  {
    if |s| > 1 {
      var init := s[..|s| - 1];
      ParseDecimalPositive(init);
      DecimalOfParseDecimal(init);
      var n := ParseDecimal(s);
      var d := s[|s| - 1] as int - '0' as int;
      assert n / 10 == ParseDecimal(init) && n % 10 == d;
      assert init + [s[|s| - 1]] == s;
    }
  }

  /** The position of the last occurrence of `c` in `s`, if any. */
  function LastIndexOf(s: string, c: char): (r: Option<nat>)
    ensures r.Some? ==> r.value < |s| && s[r.value] == c
    ensures r.Some? ==> forall k :: r.value < k < |s| ==> s[k] != c
    ensures r.None? ==> forall k :: 0 <= k < |s| ==> s[k] != c
    decreases |s|
  {
    if s == [] then None
    else if s[|s| - 1] == c then Some(|s| - 1)
    else LastIndexOf(s[..|s| - 1], c)
  }
}
