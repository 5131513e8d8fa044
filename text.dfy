/** String operations the collector relies on, each written the way Python
    defines it: substring membership (`sub in s`), `str.replace`, `str.join`,
    `str.split` with a one-character separator, and `str()` of an integer. */
module Text {

  /** `sub` occurs in `s` starting at index `i`. */
  predicate OccursAt(s: string, sub: string, i: nat)
  {
    i + |sub| <= |s| && s[i..i + |sub|] == sub
  }

  /** Python's `sub in s` for two strings. */
  predicate Contains(s: string, sub: string)
    decreases |s|
  {
    (|sub| <= |s| && s[..|sub|] == sub) || (s != [] && Contains(s[1..], sub))
  }

  /** `Contains` holds exactly when there is a position where `sub` occurs. */
  lemma {:induction false} ContainsIffOccurs(s: string, sub: string)
    ensures Contains(s, sub) <==> exists i: nat :: OccursAt(s, sub, i)
    decreases |s|
  {
    if |sub| <= |s| && s[..|sub|] == sub {
      assert OccursAt(s, sub, 0);
    } else if s != [] {
      ContainsIffOccurs(s[1..], sub);
      forall i: nat | OccursAt(s, sub, i) ensures i > 0 && OccursAt(s[1..], sub, i - 1) {
        assert s[1..][i - 1..i - 1 + |sub|] == s[i..i + |sub|];
      }
      forall i: nat | OccursAt(s[1..], sub, i) ensures OccursAt(s, sub, i + 1) {
        assert s[1..][i..i + |sub|] == s[i + 1..i + 1 + |sub|];
      }
    }
  }

  /** A string that lacks the first character of `sub` does not contain it. */
  lemma {:induction false} FirstCharAbsent(s: string, sub: string)
    requires sub != [] && sub[0] !in s
    ensures !Contains(s, sub)
    decreases |s|
  {
    if |sub| <= |s| {
      assert s[..|sub|][0] == s[0];
    }
    if s != [] {
      FirstCharAbsent(s[1..], sub);
    }
  }

  /** Python's `s.replace(pat, rep)`: a left-to-right scan that replaces every
      non-overlapping occurrence of `pat`. (Python's special case of an empty
      `pat` is never used by the collector.) */
  function ReplaceAll(s: string, pat: string, rep: string): string
    requires pat != []
    decreases |s|
  {
    if |pat| <= |s| && s[..|pat|] == pat then rep + ReplaceAll(s[|pat|..], pat, rep)
    else if s == [] then []
    else [s[0]] + ReplaceAll(s[1..], pat, rep)
  }

  /** A string with no occurrence of the pattern is left as it is. */
  lemma {:induction false} ReplaceAllAbsent(s: string, pat: string, rep: string)
    requires pat != []
    requires !Contains(s, pat)
    ensures ReplaceAll(s, pat, rep) == s
    decreases |s|
  {
    if s != [] {
      ReplaceAllAbsent(s[1..], pat, rep);
      assert [s[0]] + s[1..] == s;
    }
  }

  /** A prefix of a rewritten string that does not contain the first character
      of the replacement was already a prefix of the original. */
  lemma {:induction false} ReplaceAllKeepsPrefix(t: string, pat: string, rep: string, p: string)
    requires pat != [] && rep != []
    requires rep[0] !in p
    requires p <= ReplaceAll(t, pat, rep)
    ensures p <= t
    decreases |t|
  {
    var r := ReplaceAll(t, pat, rep);
    if |pat| <= |t| && t[..|pat|] == pat {
      // r starts with rep[0], which p lacks, so p is empty
      assert r[0] == rep[0];
    } else if t != [] && p != [] {
      var rest := ReplaceAll(t[1..], pat, rep);
      assert r == [t[0]] + rest;
      assert p[1..] <= rest;
      ReplaceAllKeepsPrefix(t[1..], pat, rep, p[1..]);
      assert p == [t[0]] + p[1..];
    }
  }

  /** After `ReplaceAll`, no occurrence of the pattern is left, provided the
      replacement cannot take part in a new one: the pattern's first character
      is not in the replacement, and the replacement's first character is not
      in the rest of the pattern. */
  lemma {:induction false} ReplaceAllLeavesNoOccurrence(s: string, pat: string, rep: string, i: nat)
    requires pat != [] && rep != []
    requires pat[0] !in rep
    requires rep[0] !in pat[1..]
    ensures !OccursAt(ReplaceAll(s, pat, rep), pat, i)
    decreases |s|
  {
    var r := ReplaceAll(s, pat, rep);
    if |pat| <= |s| && s[..|pat|] == pat {
      var rest := ReplaceAll(s[|pat|..], pat, rep);
      assert r == rep + rest;
      if i < |rep| {
        assert r[i] == rep[i];
      } else {
        ReplaceAllLeavesNoOccurrence(s[|pat|..], pat, rep, i - |rep|);
        if i + |pat| <= |r| {
          assert rest[i - |rep|..i - |rep| + |pat|] == r[i..i + |pat|];
        }
      }
    } else if s != [] {
      var rest := ReplaceAll(s[1..], pat, rep);
      assert r == [s[0]] + rest;
      if i == 0 {
        if pat[1..] <= rest {
          ReplaceAllKeepsPrefix(s[1..], pat, rep, pat[1..]);
          assert s[..|pat|] == [s[0]] + s[1..][..|pat| - 1];
          assert pat == [pat[0]] + pat[1..];
          assert s[0] != pat[0];
        } else if |pat| <= |r| {
          assert r[..|pat|][1..] == rest[..|pat| - 1];
        }
      } else {
        ReplaceAllLeavesNoOccurrence(s[1..], pat, rep, i - 1);
        if i + |pat| <= |r| {
          assert rest[i - 1..i - 1 + |pat|] == r[i..i + |pat|];
        }
      }
    }
  }

  /** The elements of the inner sequences, one run after another. */
  function Flatten<T>(xss: seq<seq<T>>): seq<T>
    decreases |xss|
  {
    if xss == [] then [] else Flatten(xss[..|xss| - 1]) + xss[|xss| - 1]
  }

  lemma FlattenSnoc<T>(xss: seq<seq<T>>, xs: seq<T>)
    ensures Flatten(xss + [xs]) == Flatten(xss) + xs
  {
    assert (xss + [xs])[..|xss|] == xss;
  }

  lemma {:induction false} FlattenConcat<T>(a: seq<seq<T>>, b: seq<seq<T>>)
    ensures Flatten(a + b) == Flatten(a) + Flatten(b)
    decreases |b|
  {
    if b == [] {
      assert a + b == a;
    } else {
      var b' := b[..|b| - 1];
      assert a + b == (a + b') + [b[|b| - 1]];
      FlattenSnoc(a + b', b[|b| - 1]);
      FlattenConcat(a, b');
      FlattenSnoc(b', b[|b| - 1]);
      assert b == b' + [b[|b| - 1]];
    }
  }

  /** Python's `sep.join(parts)`. */
  function Join(sep: string, parts: seq<string>): string
    decreases |parts|
  {
    if |parts| == 0 then ""
    else if |parts| == 1 then parts[0]
    else parts[0] + sep + Join(sep, parts[1..])
  }

  /** Python's `s.split(c)` for a one-character separator: the pieces between
      separators, always at least one. */
  function Split(s: string, c: char): (r: seq<string>)
    ensures |r| >= 1
    decreases |s|
  {
    if s == [] then [""]
    else
      var rest := Split(s[1..], c);
      if s[0] == c then [""] + rest
      else [[s[0]] + rest[0]] + rest[1..]
  }

  /** A string without the separator splits into itself. */
  lemma {:induction false} SplitWithoutSeparator(s: string, c: char)
    requires c !in s
    ensures Split(s, c) == [s]
    decreases |s|
  {
    if s != [] {
      SplitWithoutSeparator(s[1..], c);
      assert [s[0]] + s[1..] == s;
    }
  }

  /** Splitting at one separator splits the two sides independently. */
  lemma {:induction false} SplitAround(x: string, y: string, c: char)
    ensures Split(x + [c] + y, c) == Split(x, c) + Split(y, c)
    decreases |x|
  {
    if x == [] {
      assert x + [c] + y == [c] + y;
      assert ([c] + y)[1..] == y;
    } else {
      assert (x + [c] + y)[1..] == x[1..] + [c] + y;
      SplitAround(x[1..], y, c);
    }
  }

  /** Joining with a one-character separator and splitting at it gives the
      parts back, provided no part contains the separator; this is what makes
      a comma-joined record readable as fields. */
  lemma {:induction false} SplitJoin(parts: seq<string>, c: char)
    requires |parts| >= 1
    requires forall k :: 0 <= k < |parts| ==> c !in parts[k]
    ensures Split(Join([c], parts), c) == parts
    decreases |parts|
  {
    if |parts| == 1 {
      SplitWithoutSeparator(parts[0], c);
    } else {
      SplitJoin(parts[1..], c);
      SplitAround(parts[0], Join([c], parts[1..]), c);
      SplitWithoutSeparator(parts[0], c);
      assert [parts[0]] + parts[1..] == parts;
    }
  }

  /** The record format does not escape its delimiter: a field holding a comma
      reads back as two fields. */
  lemma CommaInFieldSplitsIt()
    ensures Split(Join(",", ["a,b"]), ',') == ["a", "b"]
  {
    SplitAround("a", "b", ',');
    SplitWithoutSeparator("a", ',');
    SplitWithoutSeparator("b", ',');
    assert "a" + [','] + "b" == "a,b";
  }

  /** The decimal digit character for `d`. */
  function Digit(d: nat): char
    requires d < 10
  {
    ('0' as int + d) as char
  }

  predicate IsDigit(ch: char)
  {
    '0' <= ch <= '9'
  }

  predicate AllDigits(s: string)
  {
    forall k :: 0 <= k < |s| ==> IsDigit(s[k])
  }

  /** The number a string of decimal digits stands for. */
  function DecimalValue(s: string): nat
    requires AllDigits(s)
    decreases |s|
  {
    if s == [] then 0
    else 10 * DecimalValue(s[..|s| - 1]) + (s[|s| - 1] as int - '0' as int)
  }

  /** Python's `str(n)` for a non-negative integer: decimal, no leading zeros. */
  function Decimal(n: nat): string
    decreases n
  {
    if n < 10 then [Digit(n)] else Decimal(n / 10) + [Digit(n % 10)]
  }

  /** `Decimal` writes digits only, and reading them back gives `n`. */
  lemma {:induction false} DecimalRoundTrip(n: nat)
    ensures |Decimal(n)| >= 1 && AllDigits(Decimal(n))
    ensures DecimalValue(Decimal(n)) == n
    decreases n
  {
    if n >= 10 {
      DecimalRoundTrip(n / 10);
      var s := Decimal(n);
      assert s[..|s| - 1] == Decimal(n / 10);
    }
  }

  /** `Decimal` writes no leading zero: the text of a positive number does
      not start with `0`. */
  lemma {:induction false} DecimalNoLeadingZero(n: nat)
    ensures |Decimal(n)| >= 1
    ensures Decimal(n)[0] != '0' || n == 0
    decreases n
  {
    if n >= 10 {
      DecimalNoLeadingZero(n / 10);
      assert Decimal(n)[0] == Decimal(n / 10)[0];
    }
  }

  lemma DecimalInjective(m: nat, n: nat)
    requires Decimal(m) == Decimal(n)
    ensures m == n
  {
    DecimalRoundTrip(m);
    DecimalRoundTrip(n);
  }

  /** Python's `str(i)` for any integer. */
  function IntToString(i: int): string
  {
    if i < 0 then "-" + Decimal(-i) else Decimal(i)
  }

  /** `x + "." + y` determines `x` and `y` when `y` has no dot. */
  lemma SplitAtLastDot(x: string, y: string, x': string, y': string)
    requires '.' !in y && '.' !in y'
    requires x + "." + y == x' + "." + y'
    ensures x == x' && y == y'
  {
    var s := x + "." + y;
    assert s[|x|] == '.' && s[|x'|] == '.';
    assert forall k :: |x| < k < |s| ==> s[k] == y[k - |x| - 1];
    assert forall k :: |x'| < k < |s| ==> s[k] == y'[k - |x'| - 1];
    assert |y| == |y'|;
    assert x == s[..|x|] == x';
    assert y == s[|x| + 1..] == y';
  }
}
