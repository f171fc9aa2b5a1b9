/**
  String helpers that the Swift code gets from its standard library:
  `joined(separator:)`, splitting a text into lines, decimal rendering of an
  `Int` inside string interpolation, and the `<`/`>` order on `String`.
  Strings are sequences of Unicode scalars; Swift's comparison of strings
  after canonical normalisation is modelled as plain lexicographic order on
  the scalars (the inputs are taken to be normalised already).
*/
module Text {

  /** `parts.joined(separator: sep)`. */
  function Join(parts: seq<string>, sep: string): string
  {
    if |parts| == 0 then ""
    else if |parts| == 1 then parts[0]
    else parts[0] + sep + Join(parts[1..], sep)
  }

  /** Splitting at every occurrence of `c` (like `components(separatedBy:)`):
      the empty string gives one empty piece, and no piece contains `c`. */
  function Split(s: string, c: char): (r: seq<string>)
    ensures |r| >= 1
    ensures forall k :: 0 <= k < |r| ==> c !in r[k]
  {
    if |s| == 0 then [""]
    else
      var rest := Split(s[1..], c);
      if s[0] == c then [""] + rest
      else [[s[0]] + rest[0]] + rest[1..]
  }

  lemma {:induction false} SplitWithout(x: string, c: char)
    requires c !in x
    ensures Split(x, c) == [x]
  {
    if |x| > 0 {
      SplitWithout(x[1..], c);
      assert [x[0]] + x[1..] == x;
    }
  }

  lemma {:induction false} SplitAfter(x: string, c: char, y: string)
    requires c !in x
    ensures Split(x + ([c] + y), c) == [x] + Split(y, c)
  {
    if |x| == 0 {
      assert x + ([c] + y) == [c] + y;
      assert ([c] + y)[1..] == y;
    } else {
      var s := x + ([c] + y);
      assert s[1..] == x[1..] + ([c] + y);
      SplitAfter(x[1..], c, y);
      assert [x[0]] + x[1..] == x;
    }
  }

  /** Joining lines with a one-character separator and splitting at that
      character gives the lines back, provided no line contains it. */
  lemma {:induction false} SplitJoin(lines: seq<string>, c: char)
    requires |lines| >= 1
    requires forall k :: 0 <= k < |lines| ==> c !in lines[k]
    ensures Split(Join(lines, [c]), c) == lines
  {
    if |lines| == 1 {
      SplitWithout(lines[0], c);
    } else {
      SplitJoin(lines[1..], c);
      assert Join(lines, [c]) == lines[0] + ([c] + Join(lines[1..], [c]));
      SplitAfter(lines[0], c, Join(lines[1..], [c]));
      assert [lines[0]] + lines[1..] == lines;
    }
  }

  // ---------------------------------------------------------------------
  // Decimal rendering of integers, as `\(n)` does for an `Int >= 0`.

  predicate IsDigit(ch: char) { '0' <= ch <= '9' }

  function DigitChar(d: nat): (ch: char)
    requires d < 10
    ensures IsDigit(ch) && ch as int - '0' as int == d
  {
    ('0' as int + d) as char
  }

  /** Renders without leading zeros, and at least one digit. */
  function NatToString(n: nat): (r: string)
    ensures |r| >= 1
    ensures |r| > 1 ==> r[0] != '0'
  {
    if n < 10 then [DigitChar(n)]
    else NatToString(n / 10) + [DigitChar(n % 10)]
  }

  /** Every character of the rendering is a decimal digit. */
  lemma {:induction false} NatToStringDigits(n: nat)
    ensures forall k :: 0 <= k < |NatToString(n)| ==> IsDigit(NatToString(n)[k])
  {
    if n >= 10 {
      NatToStringDigits(n / 10);
      var r := NatToString(n);
      assert r == NatToString(n / 10) + [DigitChar(n % 10)];
      forall k | 0 <= k < |r| ensures IsDigit(r[k]) {
        if k < |r| - 1 {
          assert r[k] == NatToString(n / 10)[k];
        }
      }
    }
  }

  /** The value of a decimal digit; any other character counts as zero. */
  function DigitValue(ch: char): nat
  {
    if IsDigit(ch) then ch as int - '0' as int else 0
  }

  /** Reading a string of decimal digits back as a number. */
  function ParseDecimal(s: string): nat
  {
    if |s| == 0 then 0
    else 10 * ParseDecimal(s[..|s| - 1]) + DigitValue(s[|s| - 1])
  }

  /** The rendering is faithful: its digits read back as the number. */
  lemma {:induction false} ParseNatToString(n: nat)
    ensures ParseDecimal(NatToString(n)) == n
  {
    if n >= 10 {
      var r := NatToString(n);
      assert r[..|r| - 1] == NatToString(n / 10);
      ParseNatToString(n / 10);
    }
  }

  /** Distinct numbers render to distinct strings. */
  lemma NatToStringInjective(m: nat, n: nat)
    requires NatToString(m) == NatToString(n)
    ensures m == n
  {
    ParseNatToString(m);
    ParseNatToString(n);
  }

  // ---------------------------------------------------------------------
  // The order on strings used by `$0.updatedAt > $1.updatedAt`.

  /** `a < b`: `a` is a proper prefix of `b`, or is smaller at the first
      scalar where they differ. */
  predicate LexLess(a: string, b: string)
  {
    if |b| == 0 then false
    else if |a| == 0 then true
    else if a[0] != b[0] then a[0] < b[0]
    else LexLess(a[1..], b[1..])
  }

  lemma {:induction false} LexLessTotal(a: string, b: string)
    ensures LexLess(a, b) || a == b || LexLess(b, a)
  {
    if |a| > 0 && |b| > 0 && a[0] == b[0] {
      LexLessTotal(a[1..], b[1..]);
      if a[1..] == b[1..] {
        assert a == [a[0]] + a[1..] && b == [b[0]] + b[1..];
      }
    }
  }

  lemma {:induction false} LexLessAsymmetric(a: string, b: string)
    requires LexLess(a, b)
    ensures !LexLess(b, a)
  {
    if |a| > 0 && a[0] == b[0] { LexLessAsymmetric(a[1..], b[1..]); }
  }

  lemma {:induction false} LexLessTransitive(a: string, b: string, c: string)
    requires LexLess(a, b) && LexLess(b, c)
    ensures LexLess(a, c)
  {
    if |a| > 0 && a[0] == b[0] && b[0] == c[0] {
      LexLessTransitive(a[1..], b[1..], c[1..]);
    }
  }

  /** `a >= b`, the negation of `a < b`, is transitive. */
  lemma LexAtLeastTransitive(a: string, b: string, c: string)
    requires !LexLess(a, b) && !LexLess(b, c)
    ensures !LexLess(a, c)
  {
    if LexLess(a, c) && a != b && b != c {
      LexLessTotal(a, b);
      LexLessTotal(b, c);
      LexLessTransitive(c, b, a);
      LexLessAsymmetric(c, a);
    }
  }
}
