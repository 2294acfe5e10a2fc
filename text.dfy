/** Character strings as the Python code handles them: counting a character
    (`str.count`), joining with a separator (`str.join`), splitting on a
    separator (`str.split`, and JavaScript's `split`, which agrees with it for a
    one-character separator), character-wise substitution (`re.sub` with a
    one-character pattern or class) and `int()` on decimal numerals. */
module Text {

  /** Number of occurrences of `c` in `s`. */
  function Count(s: string, c: char): nat
  {
    if s == [] then 0 else (if s[0] == c then 1 else 0) + Count(s[1..], c)
  }

  lemma {:induction false} CountConcat(a: string, b: string, c: char)
    ensures Count(a + b, c) == Count(a, c) + Count(b, c)
  {
    if a != [] {
      assert (a + b)[1..] == a[1..] + b;
      CountConcat(a[1..], b, c);
    } else {
      assert a + b == b;
    }
  }

  /** The counts of `c` in the elements of `xs`, added up. */
  function SumCounts(xs: seq<string>, c: char): nat
  {
    if xs == [] then 0 else Count(xs[0], c) + SumCounts(xs[1..], c)
  }

  /** Counting a character other than the separator in a join adds up its
      counts in the pieces. */
  lemma {:induction false} JoinCount(xs: seq<string>, sep: char, c: char)
    requires c != sep
    ensures Count(Join(xs, sep), c) == SumCounts(xs, c)
  {
    if |xs| == 1 {
      assert xs[1..] == [];
    } else if |xs| > 1 {
      JoinCount(xs[1..], sep, c);
      CountConcat(xs[0] + [sep], Join(xs[1..], sep), c);
      CountConcat(xs[0], [sep], c);
    }
  }

  /** `sep.join(xs)`. */
  function Join(xs: seq<string>, sep: char): string
  {
    if xs == [] then ""
    else if |xs| == 1 then xs[0]
    else xs[0] + [sep] + Join(xs[1..], sep)
  }

  /** Joining one more element adds a separator and the element. */
  lemma {:induction false} JoinSnoc(xs: seq<string>, x: string, sep: char)
    requires |xs| > 0
    ensures Join(xs + [x], sep) == Join(xs, sep) + [sep] + x
  {
    if |xs| > 1 {
      assert (xs + [x])[1..] == xs[1..] + [x];
      JoinSnoc(xs[1..], x, sep);
    }
  }

  /** Index of the first occurrence of `c` in `s`. */
  function IndexOf(s: string, c: char): (i: nat)
    requires c in s
    ensures i < |s| && s[i] == c && c !in s[..i]
  {
    if s[0] == c then 0
    else
      var j := IndexOf(s[1..], c);
      assert s[1..][..j] == s[1..j + 1];
      j + 1
  }

  /** `s.split(sep)`: the pieces between occurrences of `sep`; never empty,
      and the empty string gives one empty piece. */
  function Split(s: string, sep: char): (parts: seq<string>)
    ensures |parts| > 0
    decreases |s|
  {
    if sep !in s then [s]
    else
      var i := IndexOf(s, sep);
      [s[..i]] + Split(s[i + 1..], sep)
  }

  /** Splitting a joined sequence on the separator gives the sequence back,
      provided it is non-empty and no element contains the separator. */
  lemma {:induction false} SplitJoin(xs: seq<string>, sep: char)
    requires |xs| > 0
    requires forall i :: 0 <= i < |xs| ==> sep !in xs[i]
    ensures Split(Join(xs, sep), sep) == xs
  {
    if |xs| == 1 {
    } else {
      var s := Join(xs, sep);
      assert s == xs[0] + [sep] + Join(xs[1..], sep);
      assert s[|xs[0]|] == sep;
      assert s[..|xs[0]|] == xs[0];
      assert IndexOf(s, sep) == |xs[0]|;
      assert s[|xs[0]| + 1..] == Join(xs[1..], sep);
      SplitJoin(xs[1..], sep);
      assert xs == [xs[0]] + xs[1..];
    }
  }

  /** A character other than the separator occurs in a join only if it occurs
      in one of the elements. */
  lemma {:induction false} NotInJoin(xs: seq<string>, sep: char, c: char)
    requires c != sep
    requires forall i :: 0 <= i < |xs| ==> c !in xs[i]
    ensures c !in Join(xs, sep)
  {
    if |xs| > 1 {
      NotInJoin(xs[1..], sep, c);
    }
  }

  /** Replaces every character `c` of `s` by the string `f(c)`. */
  function Subst(s: string, f: char -> string): string
  {
    if s == [] then "" else f(s[0]) + Subst(s[1..], f)
  }

  lemma SubstChar(c: char, f: char -> string)
    ensures Subst([c], f) == f(c)
  {
    assert [c][1..] == [];
  }

  lemma {:induction false} SubstConcat(a: string, b: string, f: char -> string)
    ensures Subst(a + b, f) == Subst(a, f) + Subst(b, f)
  {
    if a == [] {
      assert a + b == b;
    } else {
      assert (a + b)[1..] == a[1..] + b;
      SubstConcat(a[1..], b, f);
    }
  }

  /** Applies `Subst(_, f)` to every element. */
  function SubstEach(xs: seq<string>, f: char -> string): (ys: seq<string>)
    ensures |ys| == |xs| && forall i :: 0 <= i < |xs| ==> ys[i] == Subst(xs[i], f)
  {
    seq(|xs|, i requires 0 <= i < |xs| => Subst(xs[i], f))
  }

  /** A substitution that leaves the separator alone commutes with joining. */
  lemma {:induction false} SubstJoin(xs: seq<string>, sep: char, f: char -> string)
    requires f(sep) == [sep]
    ensures Subst(Join(xs, sep), f) == Join(SubstEach(xs, f), sep)
  {
    if |xs| > 1 {
      assert [sep] == [sep] + [];
      SubstConcat(xs[0] + [sep], Join(xs[1..], sep), f);
      SubstConcat(xs[0], [sep], f);
      SubstJoin(xs[1..], sep, f);
      assert SubstEach(xs, f)[1..] == SubstEach(xs[1..], f);
    }
  }

  /** A decimal digit as a character. */
  function DigitChar(d: nat): char
    requires d < 10
  {
    ('0' as int + d) as char
  }

  predicate IsDigit(c: char)
  {
    '0' <= c <= '9'
  }

  /** Value of a decimal digit character. */
  function DigitValue(c: char): (d: nat)
    requires IsDigit(c)
    ensures d < 10 && DigitChar(d) == c
  {
    c as int - '0' as int
  }

  predicate AllDigits(s: string)
  {
    forall i :: 0 <= i < |s| ==> IsDigit(s[i])
  }

  /** The numerals `int()` is applied to here: an optional minus sign and one
      or more decimal digits. */
  predicate IsNumeral(s: string)
  {
    if |s| > 0 && s[0] == '-' then |s| > 1 && AllDigits(s[1..]) else |s| > 0 && AllDigits(s)
  }

  function NatValue(s: string): nat
    requires AllDigits(s)
  {
    if s == [] then 0 else NatValue(s[..|s| - 1]) * 10 + DigitValue(s[|s| - 1])
  }

  /** `int(s)` on a numeral. */
  function ParseInt(s: string): int
    requires IsNumeral(s)
  {
    if s[0] == '-' then var n: int := NatValue(s[1..]); -n else NatValue(s)
  }

  /** `int()` of a single digit is that digit. */
  lemma ParseDigit(d: nat)
    requires d < 10
    ensures IsNumeral([DigitChar(d)]) && ParseInt([DigitChar(d)]) == d
  {
    var s := [DigitChar(d)];
    assert s[..0] == [];
    assert NatValue(s) == DigitValue(DigitChar(d));
  }
}
