/**
 * The string operations of Python that the modelled code uses: `str.startswith`,
 * `str.replace`, `str.join` and `str(int)`. Strings are sequences of characters.
 */
module Text {

  /** `p` is a prefix of `s` (Python `s.startswith(p)`). */
  predicate StartsWith(s: string, p: string) {
    |p| <= |s| && s[..|p|] == p
  }

  /** `t` occurs in `s` starting at position `i`. */
  predicate OccursAt(t: string, s: string, i: int) {
    0 <= i <= |s| - |t| && s[i..i + |t|] == t
  }

  /** `t` occurs somewhere in `s` as a contiguous piece (Python `t in s`). */
  predicate Occurs(t: string, s: string) {
    exists i :: 0 <= i <= |s| - |t| && OccursAt(t, s, i)
  }

  lemma OccursLeft(t: string, a: string, b: string)
    requires Occurs(t, a)
    ensures Occurs(t, a + b)
  {
    var i :| 0 <= i <= |a| - |t| && OccursAt(t, a, i);
    assert (a + b)[i..i + |t|] == a[i..i + |t|];
    assert OccursAt(t, a + b, i);
  }

  lemma OccursRight(t: string, a: string, b: string)
    requires Occurs(t, b)
    ensures Occurs(t, a + b)
  {
    var i :| 0 <= i <= |b| - |t| && OccursAt(t, b, i);
    assert (a + b)[|a| + i..|a| + i + |t|] == b[i..i + |t|];
    assert OccursAt(t, a + b, |a| + i);
  }

  /**
   * A piece that starts with a character found in neither `a` nor `b`, and does
   * not hold the first character of `b`, occurs in `a + x + b` only inside `x`.
   */
  lemma OccursInMiddle(t: string, a: string, x: string, b: string)
    requires t != [] && t[0] !in a && t[0] !in b && b != [] && b[0] !in t
    requires Occurs(t, a + x + b)
    ensures Occurs(t, x)
  {
    var s := a + x + b;
    var e := |a| + |x|;
    var i :| 0 <= i <= |s| - |t| && OccursAt(t, s, i);
    assert forall j :: i <= j < i + |t| ==> s[j] == t[j - i];
    assert forall j :: 0 <= j < |a| ==> s[j] == a[j];
    assert forall j :: e <= j < |s| ==> s[j] == b[j - e];
    assert |a| <= i < e by {
      assert s[i] == t[0];
    }
    assert i + |t| <= e by {
      assert s[e] == b[0];
    }
    assert s[i..i + |t|] == x[i - |a|..i - |a| + |t|];
    assert OccursAt(t, x, i - |a|);
  }

  /** An occurrence of a non-empty `t` in `s` contains every character of `t`. */
  lemma OccursCharacters(t: string, s: string)
    requires Occurs(t, s) && t != []
    ensures t[0] in s
  {
    var i :| 0 <= i <= |s| - |t| && OccursAt(t, s, i);
    assert s[i] == s[i..i + |t|][0];
  }

  /**
   * Python `s.replace(pat, rep)` for a non-empty `pat`: scans left to right and
   * replaces every non-overlapping occurrence of `pat` by `rep`; the inserted text
   * is never scanned again.
   */
  function ReplaceAll(s: string, pat: string, rep: string): (r: string)
    requires pat != []
    ensures pat[0] !in s ==> r == s
    decreases |s|
  {
    if StartsWith(s, pat) then
      assert s[0] == pat[0];
      rep + ReplaceAll(s[|pat|..], pat, rep)
    else if s == [] then []
    else
      assert s == [s[0]] + s[1..];
      [s[0]] + ReplaceAll(s[1..], pat, rep)
  }

  /** A text in which the pattern does not occur is returned unchanged. */
  lemma {:induction false} ReplaceAllAbsent(s: string, pat: string, rep: string)
    requires pat != [] && !Occurs(pat, s)
    ensures ReplaceAll(s, pat, rep) == s
    decreases |s|
  {
    assert !OccursAt(pat, s, 0);
    if s != [] {
      assert !Occurs(pat, s[1..]) by {
        assert [s[0]] + s[1..] == s;
        if Occurs(pat, s[1..]) {
          OccursRight(pat, [s[0]], s[1..]);
        }
      }
      ReplaceAllAbsent(s[1..], pat, rep);
      assert s == [s[0]] + s[1..];
    }
  }

  /**
   * Replacing one character by another is a pointwise renaming: the length is kept
   * and every position holds the renamed character.
   */
  lemma {:induction false} ReplaceCharPointwise(s: string, c: char, d: char)
    ensures |ReplaceAll(s, [c], [d])| == |s|
    ensures forall i :: 0 <= i < |s| ==>
      ReplaceAll(s, [c], [d])[i] == if s[i] == c then d else s[i]
    decreases |s|
  {
    if s != [] {
      ReplaceCharPointwise(s[1..], c, d);
      var r := ReplaceAll(s, [c], [d]);
      var t := ReplaceAll(s[1..], [c], [d]);
      if StartsWith(s, [c]) {
        assert r == [d] + t;
      } else {
        assert r == [s[0]] + t;
      }
      assert s[0] == c <==> StartsWith(s, [c]);
      forall i | 0 <= i < |s|
        ensures r[i] == if s[i] == c then d else s[i]
      {
        if i > 0 {
          assert r[i] == t[i - 1] && s[i] == s[1..][i - 1];
        }
      }
    }
  }

  /** After replacing `c` by a different character, no `c` is left. */
  lemma ReplaceCharRemoves(s: string, c: char, d: char)
    requires c != d
    ensures c !in ReplaceAll(s, [c], [d])
  {
    ReplaceCharPointwise(s, c, d);
  }

  /** A string without `c` is left as it is by replacing `c`. */
  lemma ReplaceCharAbsent(s: string, c: char, d: char)
    requires c !in s
    ensures ReplaceAll(s, [c], [d]) == s
  {
    ReplaceCharPointwise(s, c, d);
  }

  /** Where the pattern does not start, one character is copied and scanning moves on. */
  lemma ReplaceAllStep(s: string, pat: string, rep: string)
    requires pat != [] && s != [] && !StartsWith(s, pat)
    ensures ReplaceAll(s, pat, rep) == [s[0]] + ReplaceAll(s[1..], pat, rep)
  {
  }

  /** A text whose `j`-th character differs from the pattern's does not start with it. */
  lemma NotStartsWith(s: string, pat: string, j: nat)
    requires j < |s| && j < |pat| && s[j] != pat[j]
    ensures !StartsWith(s, pat)
  {
    if |pat| <= |s| { assert s[..|pat|][j] == s[j]; }
  }

  /**
   * A prefix that does not contain the first character of the pattern cannot begin
   * an occurrence, so it is copied unchanged.
   */
  lemma {:induction false} ReplaceAllSkips(a: string, b: string, pat: string, rep: string)
    requires pat != [] && pat[0] !in a
    ensures ReplaceAll(a + b, pat, rep) == a + ReplaceAll(b, pat, rep)
    decreases |a|
  {
    if a == [] {
      assert a + b == b;
    } else {
      var s := a + b;
      assert s[0] == a[0];
      NotStartsWith(s, pat, 0);
      ReplaceAllStep(s, pat, rep);
      assert s[1..] == a[1..] + b;
      ReplaceAllSkips(a[1..], b, pat, rep);
      var rb := ReplaceAll(b, pat, rep);
      assert ReplaceAll(s, pat, rep) == [a[0]] + (a[1..] + rb);
      assert [a[0]] + (a[1..] + rb) == ([a[0]] + a[1..]) + rb;
      assert [a[0]] + a[1..] == a;
    }
  }

  /** An occurrence of the pattern at the front is replaced and scanning resumes after it. */
  lemma ReplaceAllAtFront(b: string, pat: string, rep: string)
    requires pat != []
    ensures ReplaceAll(pat + b, pat, rep) == rep + ReplaceAll(b, pat, rep)
  {
    assert StartsWith(pat + b, pat);
    assert (pat + b)[|pat|..] == b;
  }

  lemma SplitFirst(q: string, r: string)
    requires q != []
    ensures [q[0]] + (q[1..] + r) == q + r
  {
    assert q == [q[0]] + q[1..];
  }

  /**
   * A piece `q` that begins with the pattern's first character, differs from the
   * pattern at position `j` and otherwise never contains that character is copied
   * unchanged.
   */
  lemma ReplaceAllSkipsOther(q: string, b: string, pat: string, rep: string, j: nat)
    requires pat != [] && q != [] && q[0] == pat[0] && pat[0] !in q[1..]
    requires j < |q| && j < |pat| && q[j] != pat[j]
    ensures ReplaceAll(q + b, pat, rep) == q + ReplaceAll(b, pat, rep)
  {
    var s, t := q + b, q[1..];
    var rb := ReplaceAll(b, pat, rep);
    assert s[j] == q[j];
    NotStartsWith(s, pat, j);
    ReplaceAllStep(s, pat, rep);
    assert s[0] == q[0] && s[1..] == t + b;
    ReplaceAllSkips(t, b, pat, rep);
    assert ReplaceAll(s, pat, rep) == [q[0]] + (t + rb);
    SplitFirst(q, rb);
  }

  /** Python `sep.join(xs)`. */
  function Join(sep: string, xs: seq<string>): (r: string)
    ensures xs != [] ==> StartsWith(r, xs[0])
    decreases |xs|
  {
    if xs == [] then ""
    else if |xs| == 1 then xs[0]
    else xs[0] + sep + Join(sep, xs[1..])
  }

  /** Every joined element occurs in the joined string. */
  lemma {:induction false} JoinContainsEach(sep: string, xs: seq<string>, j: nat)
    requires j < |xs|
    ensures Occurs(xs[j], Join(sep, xs))
    decreases |xs|
  {
    if |xs| == 1 {
      assert OccursAt(xs[0], Join(sep, xs), 0);
    } else if j == 0 {
      assert Join(sep, xs) == xs[0] + (sep + Join(sep, xs[1..]));
      assert OccursAt(xs[0], xs[0], 0);
      OccursLeft(xs[0], xs[0], sep + Join(sep, xs[1..]));
    } else {
      JoinContainsEach(sep, xs[1..], j - 1);
      assert Join(sep, xs) == (xs[0] + sep) + Join(sep, xs[1..]);
      OccursRight(xs[j], xs[0] + sep, Join(sep, xs[1..]));
    }
  }

  /** A character of a joined string comes from the separator or from an element. */
  lemma {:induction false} JoinCharacters(sep: string, xs: seq<string>, c: char)
    requires c in Join(sep, xs)
    ensures c in sep || exists i :: 0 <= i < |xs| && c in xs[i]
    decreases |xs|
  {
    if |xs| > 1 {
      if c !in xs[0] && c !in sep {
        JoinCharacters(sep, xs[1..], c);
        var i :| 0 <= i < |xs[1..]| && c in xs[1..][i];
        assert c in xs[i + 1];
      }
    }
  }

  /** The decimal digit character for `d`. */
  function DigitChar(d: nat): (c: char)
    requires d < 10
    ensures '0' <= c <= '9'
  {
    (48 + d) as char
  }

  /** The numeric value of a decimal digit character. */
  function DigitValue(c: char): nat
  {
    if '0' <= c <= '9' then (c as int) - 48 else 0
  }

  predicate IsDigit(c: char) {
    '0' <= c <= '9'
  }

  /** Python `str(n)` for `n >= 0`: decimal digits, most significant first, no leading zero. */
  function NatToString(n: nat): (r: string)
    ensures |r| >= 1 && forall i :: 0 <= i < |r| ==> IsDigit(r[i])
    ensures r[0] == '0' ==> r == "0"
    decreases n
  {
    if n < 10 then [DigitChar(n)] else NatToString(n / 10) + [DigitChar(n % 10)]
  }

  /** Reading a string of decimal digits as a number. */
  function DecimalValue(s: string): nat
    decreases |s|
  {
    if s == [] then 0 else 10 * DecimalValue(s[..|s| - 1]) + DigitValue(s[|s| - 1])
  }

  /** Printing a natural number in decimal and reading it back gives the number. */
  lemma {:induction false} NatToStringRoundTrip(n: nat)
    ensures DecimalValue(NatToString(n)) == n
    decreases n
  {
    var r := NatToString(n);
    if n >= 10 {
      NatToStringRoundTrip(n / 10);
      assert r[..|r| - 1] == NatToString(n / 10);
    }
  }

  /** Python `str(i)` for an integer: an optional minus sign, then the digits of `|i|`. */
  function IntToString(i: int): (r: string)
    ensures |r| >= 1 && (i < 0 <==> r[0] == '-')
    ensures forall k :: 0 <= k < |r| ==> IsDigit(r[k]) || (k == 0 && r[k] == '-')
  {
    if i < 0 then "-" + NatToString(-i) else NatToString(i)
  }

  /** Reading back what `IntToString` printed. */
  function ParseInt(s: string): int
  {
    if s != [] && s[0] == '-' then -(DecimalValue(s[1..]) as int) else DecimalValue(s)
  }

  lemma IntToStringRoundTrip(i: int)
    ensures ParseInt(IntToString(i)) == i
  {
    if i < 0 {
      NatToStringRoundTrip(-i);
      assert IntToString(i)[1..] == NatToString(-i);
    } else {
      NatToStringRoundTrip(i);
    }
  }
}
