/**
 * The Python string and list operations the pipeline relies on, written out
 * with Python's semantics: slicing, `split`/`join` on one separator,
 * `replace`, `startswith`/`endswith`/`in`, and the zero-padded decimal ids
 * built with `str(n).zfill(3)`.
 */
module Text {
  import opened Common

  // ---------------------------------------------------------------------
  // Slicing
  // ---------------------------------------------------------------------

  /** `s[:n]` for a non-negative `n`. */
  function Take<T>(s: seq<T>, n: nat): (r: seq<T>)
    ensures |r| == Min(n, |s|)
    ensures r == s[..Min(n, |s|)]
  {
    if n <= |s| then s[..n] else s
  }

  /** `xs[start:]` with Python's index normalisation: a negative start counts
      from the end, and the result is clamped to the list. */
  function SliceFrom<T>(xs: seq<T>, start: int): (r: seq<T>)
    ensures start >= |xs| ==> r == []
    ensures 0 <= start < |xs| ==> r == xs[start..]
    ensures start < 0 && -start <= |xs| ==> r == xs[|xs| + start..]
    ensures start < 0 && -start > |xs| ==> r == xs
  {
    var k := if start < 0 then |xs| + start else start;
    if k <= 0 then xs else if k >= |xs| then [] else xs[k..]
  }

  /** `xs[-n:]` for a positive `n`: the last `n` items, or all of them. */
  function Last<T>(xs: seq<T>, n: nat): (r: seq<T>)
    requires n > 0
    ensures |r| == Min(n, |xs|)
    ensures r == xs[|xs| - |r|..]
  {
    SliceFrom(xs, -(n as int))
  }

  // ---------------------------------------------------------------------
  // Prefixes and substrings
  // ---------------------------------------------------------------------

  predicate StartsWith(s: string, prefix: string) {
    |prefix| <= |s| && s[..|prefix|] == prefix
  }

  predicate EndsWith(s: string, suffix: string) {
    |suffix| <= |s| && s[|s| - |suffix|..] == suffix
  }

  /** `sub` occurs in `s` starting at index `i`. */
  predicate OccursAt(s: string, sub: string, i: int) {
    0 <= i <= |s| - |sub| && s[i..i + |sub|] == sub
  }

  /** Python's `sub in s`, scanning the start positions from the left. */
  predicate Contains(s: string, sub: string)
    decreases |s|
  {
    StartsWith(s, sub) || (|s| > 0 && Contains(s[1..], sub))
  }

  /** `sub in s` holds exactly when `sub` occurs at some index of `s`. */
  lemma {:induction false} ContainsMeaning(s: string, sub: string)
    ensures Contains(s, sub) <==> exists i :: OccursAt(s, sub, i)
    decreases |s|
  {
    assert StartsWith(s, sub) <==> OccursAt(s, sub, 0);
    if |s| > 0 {
      ContainsMeaning(s[1..], sub);
      if exists i :: OccursAt(s[1..], sub, i) {
        var i :| OccursAt(s[1..], sub, i);
        assert s[i + 1..i + 1 + |sub|] == s[1..][i..i + |sub|];
        assert OccursAt(s, sub, i + 1);
      }
      if exists i :: OccursAt(s, sub, i) {
        var i :| OccursAt(s, sub, i);
        if i > 0 {
          assert s[1..][i - 1..i - 1 + |sub|] == s[i..i + |sub|];
          assert OccursAt(s[1..], sub, i - 1);
        }
      }
    }
  }

  // ---------------------------------------------------------------------
  // str.replace
  // ---------------------------------------------------------------------

  /** `s.replace(pat, rep)`: every non-overlapping occurrence of `pat`,
      scanned from the left, is replaced. */
  function Replace(s: string, pat: string, rep: string): string
    requires |pat| > 0
    decreases |s|
  {
    if |s| < |pat| then s
    else if s[..|pat|] == pat then rep + Replace(s[|pat|..], pat, rep)
    else [s[0]] + Replace(s[1..], pat, rep)
  }

  /** Character-by-character substitution, the shape `Replace` takes for a
      one-character pattern. */
  function Subst(s: string, c: char, rep: string): (r: string)
    ensures c !in rep ==> c !in r
    ensures forall d :: d in r ==> d in s || d in rep
  {
    if s == [] then [] else (if s[0] == c then rep else [s[0]]) + Subst(s[1..], c, rep)
  }

  lemma {:induction false} ReplaceOneChar(s: string, c: char, rep: string)
    ensures Replace(s, [c], rep) == Subst(s, c, rep)
  {
    if |s| >= 1 {
      ReplaceOneChar(s[1..], c, rep);
      assert s[..1] == [s[0]];
    }
  }

  lemma {:induction false} SubstAppend(a: string, b: string, c: char, rep: string)
    ensures Subst(a + b, c, rep) == Subst(a, c, rep) + Subst(b, c, rep)
  {
    if a == [] {
      assert a + b == b;
    } else {
      assert (a + b)[1..] == a[1..] + b;
      SubstAppend(a[1..], b, c, rep);
    }
  }

  // ---------------------------------------------------------------------
  // split / join on one separator character
  // ---------------------------------------------------------------------

  /** `s.split(c)`: never empty; `""` splits into `[""]`. */
  function Split(s: string, c: char): (r: seq<string>)
    ensures |r| >= 1
    decreases |s|
  {
    if |s| == 0 then [""]
    else
      var rest := Split(s[1..], c);
      if s[0] == c then [""] + rest else [[s[0]] + rest[0]] + rest[1..]
  }

  /** `sep.join(xs)` */
  function Join(sep: string, xs: seq<string>): string
    decreases |xs|
  {
    if |xs| == 0 then "" else if |xs| == 1 then xs[0] else xs[0] + sep + Join(sep, xs[1..])
  }

  /** Joining the pieces of a split gives the string back. */
  lemma {:induction false} JoinSplit(s: string, c: char)
    ensures Join([c], Split(s, c)) == s
  {
    if |s| > 0 {
      var rest := Split(s[1..], c);
      JoinSplit(s[1..], c);
      if s[0] == c {
        assert Split(s, c) == [""] + rest;
        assert ([""] + rest)[1..] == rest;
      } else {
        var r := [[s[0]] + rest[0]] + rest[1..];
        assert Split(s, c) == r;
        if |rest| == 1 {
          assert Join([c], r) == [s[0]] + rest[0];
        } else {
          assert r[1..] == rest[1..];
          assert Join([c], rest) == rest[0] + [c] + Join([c], rest[1..]);
        }
        assert s == [s[0]] + s[1..];
      }
    }
  }

  /** No piece of a split contains the separator. */
  lemma {:induction false} SplitPieces(s: string, c: char)
    ensures forall p :: p in Split(s, c) ==> c !in p
  {
    if |s| > 0 {
      SplitPieces(s[1..], c);
      var rest := Split(s[1..], c);
      if s[0] != c {
        assert forall p :: p in rest[1..] ==> p in rest;
        assert c !in rest[0];
      }
    }
  }

  lemma {:induction false} SplitWithoutSep(x: string, c: char)
    requires c !in x
    ensures Split(x, c) == [x]
  {
    if |x| > 0 {
      SplitWithoutSep(x[1..], c);
      assert x == [x[0]] + x[1..];
    }
  }

  lemma {:induction false} SplitAfterPiece(x: string, c: char, t: string)
    requires c !in x
    ensures Split(x + [c] + t, c) == [x] + Split(t, c)
  {
    if |x| == 0 {
      assert x + [c] + t == [c] + t;
      assert ([c] + t)[1..] == t;
    } else {
      assert (x + [c] + t)[1..] == x[1..] + [c] + t;
      SplitAfterPiece(x[1..], c, t);
      assert x == [x[0]] + x[1..];
    }
  }

  /** Splitting a join of separator-free pieces gives the pieces back. */
  lemma {:induction false} SplitJoin(xs: seq<string>, c: char)
    requires |xs| >= 1
    requires forall x :: x in xs ==> c !in x
    ensures Split(Join([c], xs), c) == xs
  {
    if |xs| == 1 {
      SplitWithoutSep(xs[0], c);
    } else {
      SplitJoin(xs[1..], c);
      SplitAfterPiece(xs[0], c, Join([c], xs[1..]));
      assert [xs[0]] + xs[1..] == xs;
    }
  }

  /** Joining two non-empty lists with a separator in between. */
  lemma {:induction false} JoinAppend(sep: string, a: seq<string>, b: seq<string>)
    requires |a| >= 1 && |b| >= 1
    ensures Join(sep, a + b) == Join(sep, a) + sep + Join(sep, b)
  {
    if |a| == 1 {
      assert (a + b)[1..] == b;
    } else {
      assert (a + b)[1..] == a[1..] + b;
      JoinAppend(sep, a[1..], b);
    }
  }

  // ---------------------------------------------------------------------
  // Decimal numbers and zero-padded ids
  // ---------------------------------------------------------------------

  function Digit(d: nat): char
    requires d < 10
  {
    "0123456789"[d]
  }

  function DigitValue(ch: char): nat {
    if '0' <= ch <= '9' then (ch as int - '0' as int) as nat else 0
  }

  lemma DigitRoundTrip(d: nat)
    requires d < 10
    ensures DigitValue(Digit(d)) == d
  {
  }

  predicate IsDigits(s: string) {
    forall i :: 0 <= i < |s| ==> '0' <= s[i] <= '9'
  }

  /** `str(n)` for a natural number. */
  function NatToDecimal(n: nat): string
    decreases n
  {
    if n < 10 then [Digit(n)] else NatToDecimal(n / 10) + [Digit(n % 10)]
  }

  /** `str(n)` is a non-empty string of digits without a leading zero
      (except for `0` itself). */
  lemma {:induction false} NatToDecimalShape(n: nat)
    ensures |NatToDecimal(n)| >= 1 && IsDigits(NatToDecimal(n))
    ensures n >= 1 ==> NatToDecimal(n)[0] != '0'
    decreases n
  {
    if n >= 10 {
      NatToDecimalShape(n / 10);
    }
  }

  /** `str(i)` for any integer. */
  function IntToDecimal(i: int): string {
    if i < 0 then "-" + NatToDecimal(-i) else NatToDecimal(i)
  }

  /** The value of a string of decimal digits: the inverse of `NatToDecimal`. */
  function DecimalValue(s: string): nat
    decreases |s|
  {
    if s == [] then 0 else DecimalValue(s[..|s| - 1]) * 10 + DigitValue(s[|s| - 1])
  }

  lemma {:induction false} DecimalRoundTrip(n: nat)
    ensures DecimalValue(NatToDecimal(n)) == n
    decreases n
  {
    var r := NatToDecimal(n);
    if n >= 10 {
      var init := NatToDecimal(n / 10);
      DecimalRoundTrip(n / 10);
      assert r == init + [Digit(n % 10)];
      assert r[..|r| - 1] == init;
      DigitRoundTrip(n % 10);
    } else {
      DigitRoundTrip(n);
    }
  }

  /** `s.zfill(width)` for a string without a sign: one `0` in front at a
      time until the width is reached. */
  function ZFill(s: string, width: nat): string
    decreases width - |s|
  {
    if |s| >= width then s else ZFill("0" + s, width)
  }

  /** `zfill` pads on the left with zeros up to the width and keeps the
      string as its suffix. */
  lemma {:induction false} ZFillShape(s: string, width: nat)
    ensures |ZFill(s, width)| == Max(width, |s|)
    ensures ZFill(s, width)[|ZFill(s, width)| - |s|..] == s
    ensures forall i :: 0 <= i < |ZFill(s, width)| - |s| ==> ZFill(s, width)[i] == '0'
    decreases width - |s|
  {
    if |s| < width {
      var t := "0" + s;
      ZFillShape(t, width);
      var z := ZFill(s, width);
      assert z == ZFill(t, width);
      assert z[|z| - |t|..] == t;
      assert z[|z| - |s|..] == t[1..];
      assert z[|z| - |t|] == '0';
    }
  }

  /** The text between a fixed prefix and a fixed suffix is determined by
      the whole. */
  lemma InfixInjective(prefix: string, x: string, y: string, suffix: string)
    requires prefix + x + suffix == prefix + y + suffix
    ensures x == y
  {
    var s := prefix + x + suffix;
    assert |x| == |y|;
    assert x == s[|prefix|..|s| - |suffix|];
    assert y == (prefix + y + suffix)[|prefix|..|s| - |suffix|];
  }

  /** `f"{prefix}{str(n).zfill(3)}"`, the shape of REQ-, US- and TC- ids. */
  function PaddedId(prefix: string, n: nat): string {
    prefix + ZFill(NatToDecimal(n), 3)
  }

  lemma ZFillInjective(x: string, y: string, w: nat)
    requires |x| >= 1 && |y| >= 1 && x[0] != '0' && y[0] != '0'
    requires ZFill(x, w) == ZFill(y, w)
    ensures x == y
  {
    ZFillShape(x, w);
    ZFillShape(y, w);
  }

  /** Distinct positive numbers give distinct ids: the numbering never
      produces the same id twice. */
  lemma PaddedIdInjective(prefix: string, a: nat, b: nat)
    requires a >= 1 && b >= 1 && a != b
    ensures PaddedId(prefix, a) != PaddedId(prefix, b)
  {
    if PaddedId(prefix, a) == PaddedId(prefix, b) {
      var da, db := NatToDecimal(a), NatToDecimal(b);
      NatToDecimalShape(a);
      NatToDecimalShape(b);
      assert ZFill(da, 3) == PaddedId(prefix, a)[|prefix|..];
      assert ZFill(db, 3) == PaddedId(prefix, b)[|prefix|..];
      ZFillInjective(da, db, 3);
      DecimalRoundTrip(a);
      DecimalRoundTrip(b);
    }
  }
}
