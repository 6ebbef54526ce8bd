/**
 * The ECMAScript string operations the pages use: `toLowerCase`, `includes`,
 * `startsWith`, `split` and `join` on one separator character, and the
 * decimal rendering of an integer in a template literal.
 */
module Strings {

  /** An upper-case letter of Basic Latin or Latin-1 that `toLowerCase` maps 32 code points down. */
  predicate IsUpperLatin(c: char)
  {
    ('A' <= c <= 'Z') || ('À' <= c <= 'Þ' && c != '×')
  }

  function LowerChar(c: char): (d: char)
    ensures IsUpperLatin(c) ==> d as int == c as int + 32
    ensures !IsUpperLatin(c) ==> d == c
    ensures !IsUpperLatin(d)
  {
    if IsUpperLatin(c) then (c as int + 32) as char else c
  }

  /** `s.toLowerCase()`, restricted to the Latin letters above. */
  function ToLower(s: string): (r: string)
    ensures |r| == |s|
    ensures forall i :: 0 <= i < |s| ==> r[i] == LowerChar(s[i])
  {
    seq(|s|, i requires 0 <= i < |s| => LowerChar(s[i]))
  }

  lemma ToLowerIdempotent(s: string)
    ensures ToLower(ToLower(s)) == ToLower(s)
  {
  }

  /** `t` occurs in `s` starting at position `i`. */
  ghost predicate OccursAt(t: string, s: string, i: int)
  {
    0 <= i && i + |t| <= |s| && s[i..i + |t|] == t
  }

  /** `s.startsWith(t)`. */
  predicate StartsWith(s: string, t: string)
  {
    |t| <= |s| && s[..|t|] == t
  }

  /** `s.includes(t)`: `t` occurs somewhere in `s`; the empty string occurs everywhere. */
  function Includes(s: string, t: string): (b: bool)
    ensures b <==> exists i :: OccursAt(t, s, i)
    ensures t == [] ==> b
    decreases |s|
  {
    assert OccursAt(t, s, 0) <==> StartsWith(s, t);
    if |t| > |s| then false
    else if StartsWith(s, t) then true
    else
      var b := Includes(s[1..], t);
      assert b ==> exists i :: OccursAt(t, s, i) by {
        if b {
          var i :| OccursAt(t, s[1..], i);
          assert s[1..][i..i + |t|] == s[i + 1..i + 1 + |t|];
          assert OccursAt(t, s, i + 1);
        }
      }
      assert (exists i :: OccursAt(t, s, i)) ==> b by {
        if exists i :: OccursAt(t, s, i) {
          var i :| OccursAt(t, s, i);
          assert i != 0;
          assert s[1..][i - 1..i - 1 + |t|] == s[i..i + |t|];
          assert OccursAt(t, s[1..], i - 1);
        }
      }
      b
  }

  /** `xs.join(sep)` for a one-character separator; `[].join(sep)` is the empty string. */
  function Join(xs: seq<string>, sep: char): string
  {
    if xs == [] then ""
    else if |xs| == 1 then xs[0]
    else xs[0] + [sep] + Join(xs[1..], sep)
  }

  /** `s.split(sep)` for a one-character separator: always at least one piece, none containing `sep`. */
  function Split(s: string, sep: char): (r: seq<string>)
    ensures |r| >= 1
    ensures forall k :: 0 <= k < |r| ==> sep !in r[k]
    decreases |s|
  {
    if s == [] then [""]
    else if s[0] == sep then [""] + Split(s[1..], sep)
    else
      var rest := Split(s[1..], sep);
      [[s[0]] + rest[0]] + rest[1..]
  }

  lemma {:induction false} SplitNoSeparator(s: string, sep: char)
    requires sep !in s
    ensures Split(s, sep) == [s]
    decreases |s|
  {
    if s != [] {
      SplitNoSeparator(s[1..], sep);
      assert [s[0]] + s[1..] == s;
    }
  }

  lemma {:induction false} SplitAfterPiece(x: string, t: string, sep: char)
    requires sep !in x
    ensures Split(x + [sep] + t, sep) == [x] + Split(t, sep)
    decreases |x|
  {
    if x == [] {
      assert x + [sep] + t == [sep] + t;
      assert ([sep] + t)[1..] == t;
    } else {
      var s := x + [sep] + t;
      assert s[0] == x[0];
      assert s[1..] == x[1..] + [sep] + t;
      SplitAfterPiece(x[1..], t, sep);
      assert [x[0]] + x[1..] == x;
    }
  }

  /** Splitting a joined list gives the list back when no piece holds the separator. */
  lemma {:induction false} SplitJoin(xs: seq<string>, sep: char)
    requires |xs| >= 1
    requires forall k :: 0 <= k < |xs| ==> sep !in xs[k]
    ensures Split(Join(xs, sep), sep) == xs
  {
    if |xs| == 1 {
      SplitNoSeparator(xs[0], sep);
    } else {
      SplitJoin(xs[1..], sep);
      SplitAfterPiece(xs[0], Join(xs[1..], sep), sep);
      assert [xs[0]] + xs[1..] == xs;
    }
  }

  lemma JoinCons(x: string, xs: seq<string>, sep: char)
    requires xs != []
    ensures Join([x] + xs, sep) == x + [sep] + Join(xs, sep)
  {
    assert ([x] + xs)[1..] == xs;
  }

  /** A character other than the separator occurs in the joined string only if it occurs in a piece. */
  lemma {:induction false} JoinAvoids(xs: seq<string>, sep: char, c: char)
    requires c != sep
    requires forall k :: 0 <= k < |xs| ==> c !in xs[k]
    ensures c !in Join(xs, sep)
  {
    if |xs| > 1 {
      JoinAvoids(xs[1..], sep, c);
    }
  }

  function DigitChar(d: int): char
    requires 0 <= d < 10
  {
    ('0' as int + d) as char
  }

  predicate IsDigit(c: char) { '0' <= c <= '9' }

  /** The decimal digits of `n`, most significant first, without leading zeros. */
  function Digits(n: nat): (s: string)
    ensures |s| >= 1
    ensures forall k :: 0 <= k < |s| ==> IsDigit(s[k])
    ensures |s| > 1 ==> s[0] != '0'
  {
    if n < 10 then [DigitChar(n)] else Digits(n / 10) + [DigitChar(n % 10)]
  }

  /** The number a string of decimal digits denotes. */
  function DigitsValue(s: string): nat
    requires forall k :: 0 <= k < |s| ==> IsDigit(s[k])
  {
    if s == [] then 0
    else
      assert IsDigit(s[|s| - 1]);
      DigitsValue(s[..|s| - 1]) * 10 + (s[|s| - 1] as int - '0' as int)
  }

  lemma {:induction false} DigitsRoundTrip(n: nat)
    ensures DigitsValue(Digits(n)) == n
  {
    if n >= 10 {
      var s := Digits(n);
      assert s[..|s| - 1] == Digits(n / 10);
      DigitsRoundTrip(n / 10);
    }
  }

  /** `${n}` for an integer `n`: a minus sign for negatives, then the digits. */
  function Decimal(n: int): (s: string)
    ensures |s| >= 1
    ensures forall k :: 0 <= k < |s| ==> IsDigit(s[k]) || s[k] == '-'
  {
    if n < 0 then "-" + Digits(-n) else Digits(n)
  }

  /** Reads back what `Decimal` writes. */
  function DecimalValue(s: string): int
  {
    if |s| >= 1 && s[0] == '-' && forall k :: 1 <= k < |s| ==> IsDigit(s[k]) then -(DigitsValue(s[1..]) as int)
    else if forall k :: 0 <= k < |s| ==> IsDigit(s[k]) then DigitsValue(s)
    else 0
  }

  lemma DecimalRoundTrip(n: int)
    ensures DecimalValue(Decimal(n)) == n
  {
    if n < 0 {
      DigitsRoundTrip(-n);
      assert Decimal(n)[1..] == Digits(-n);
    } else {
      DigitsRoundTrip(n);
    }
  }
}
