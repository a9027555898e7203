/**
 * The parts of Python's `str` and slicing that the core relies on:
 * `split` and `join` on a separator, `strip`, `lower`, `capitalize`,
 * `startswith`/`endswith`, the `in` substring test, `count`, decimal
 * formatting of a non-negative int, and `s[i:j]` with Python's clamping.
 */
module Text {

  /** The characters Python's `str.isspace` accepts, i.e. those `str.strip()` removes. */
  predicate IsSpace(c: char)
  {
    var n := c as int;
    (0x09 <= n <= 0x0d) || (0x1c <= n <= 0x20) || n == 0x85 || n == 0xa0 || n == 0x1680
    || (0x2000 <= n <= 0x200a) || n == 0x2028 || n == 0x2029 || n == 0x202f || n == 0x205f
    || n == 0x3000
  }

  predicate StartsWith(s: string, prefix: string)
  {
    |prefix| <= |s| && s[..|prefix|] == prefix
  }

  predicate EndsWith(s: string, suffix: string)
  {
    |suffix| <= |s| && s[|s| - |suffix|..] == suffix
  }

  /** Python's `sub in s` for strings. */
  predicate Contains(s: string, sub: string)
  {
    exists i | 0 <= i <= |s| - |sub| :: OccursAt(s, sub, i)
  }

  predicate OccursAt(s: string, sub: string, i: nat)
  {
    i + |sub| <= |s| && s[i..i + |sub|] == sub
  }

  /** A prefix of a suffix of `s` occurs in `s`. */
  lemma SuffixPrefixOccurs(s: string, t: string, u: string)
    requires EndsWith(s, t) && StartsWith(t, u)
    ensures Contains(s, u)
  {
    var i := |s| - |t|;
    assert s[i..i + |u|] == t[..|u|];
    assert OccursAt(s, u, i);
  }

  /** A string occurs in any string built around it. */
  lemma ContainsMiddle(a: string, b: string, c: string)
    ensures Contains(a + b + c, b)
  {
    assert (a + b + c)[|a|..|a| + |b|] == b;
    assert OccursAt(a + b + c, b, |a|);
  }

  /** `s.count(c)` for a one-character string `c`. */
  function CountChar(s: string, c: char): nat
  {
    if s == [] then 0 else (if s[0] == c then 1 else 0) + CountChar(s[1..], c)
  }

  lemma {:induction false} CountCharAppend(a: string, b: string, c: char)
    ensures CountChar(a + b, c) == CountChar(a, c) + CountChar(b, c)
  {
    if a != [] {
      assert (a + b)[1..] == a[1..] + b;
      CountCharAppend(a[1..], b, c);
    } else {
      assert a + b == b;
    }
  }

  /** A prefix never holds more separators than the whole string. */
  lemma CountCharPrefix(s: string, i: nat, c: char)
    requires i <= |s|
    ensures CountChar(s[..i], c) <= CountChar(s, c)
  {
    assert s == s[..i] + s[i..];
    CountCharAppend(s[..i], s[i..], c);
  }

  /**
   * `s.split(sep)` for a one-character separator: the pieces between
   * separators, so there is always one piece more than separators.
   */
  function Split(s: string, sep: char): (parts: seq<string>)
    ensures |parts| == CountChar(s, sep) + 1
    ensures forall i :: 0 <= i < |parts| ==> sep !in parts[i]
  {
    if s == [] then [""]
    else
      var rest := Split(s[1..], sep);
      if s[0] == sep then [""] + rest
      else [[s[0]] + rest[0]] + rest[1..]
  }

  /** `sep.join(parts)`. */
  function Join(parts: seq<string>, sep: string): string
  {
    if |parts| == 0 then ""
    else if |parts| == 1 then parts[0]
    else parts[0] + sep + Join(parts[1..], sep)
  }

  lemma {:induction false} JoinAppend(a: seq<string>, b: seq<string>, sep: string)
    requires a != [] && b != []
    ensures Join(a + b, sep) == Join(a, sep) + sep + Join(b, sep)
  {
    if |a| == 1 {
      assert (a + b)[1..] == b;
    } else {
      assert (a + b)[1..] == a[1..] + b;
      JoinAppend(a[1..], b, sep);
    }
  }

  /** Re-joining the pieces of a split gives back the original text. */
  lemma {:induction false} JoinSplit(s: string, sep: char)
    ensures Join(Split(s, sep), [sep]) == s
  {
    if s != [] {
      var rest := Split(s[1..], sep);
      JoinSplit(s[1..], sep);
      if s[0] == sep {
        assert ([""] + rest)[1..] == rest;
      } else if |rest| > 1 {
        var parts := [[s[0]] + rest[0]] + rest[1..];
        assert parts[1..] == rest[1..];
        assert Join(rest, [sep]) == rest[0] + [sep] + Join(rest[1..], [sep]);
      }
    }
  }

  lemma {:induction false} SplitWithoutSep(p: string, sep: char)
    requires sep !in p
    ensures Split(p, sep) == [p]
  {
    if p != [] {
      SplitWithoutSep(p[1..], sep);
      assert [p[0]] + p[1..] == p;
    }
  }

  lemma {:induction false} SplitAfterSep(p: string, t: string, sep: char)
    requires sep !in p
    ensures Split(p + [sep] + t, sep) == [p] + Split(t, sep)
  {
    var s := p + [sep] + t;
    if p == [] {
      assert s[1..] == t;
    } else {
      assert s[1..] == p[1..] + [sep] + t;
      SplitAfterSep(p[1..], t, sep);
      assert [p[0]] + p[1..] == p;
    }
  }

  /** The first piece of a split is a prefix of the text, followed by the separator unless it is all of it. */
  lemma {:induction false} SplitFirst(s: string, sep: char)
    ensures var f := Split(s, sep)[0];
            |f| <= |s| && s[..|f|] == f && (|f| < |s| ==> s[|f|] == sep)
  {
    if s != [] && s[0] != sep {
      SplitFirst(s[1..], sep);
      var g := Split(s[1..], sep)[0];
      assert Split(s, sep)[0] == [s[0]] + g;
      assert s[..|g| + 1] == [s[0]] + s[1..][..|g|];
    }
  }

  /** Splitting a join of separator-free pieces gives back the pieces. */
  lemma {:induction false} SplitJoin(parts: seq<string>, sep: char)
    requires |parts| >= 1
    requires forall i :: 0 <= i < |parts| ==> sep !in parts[i]
    ensures Split(Join(parts, [sep]), sep) == parts
  {
    if |parts| == 1 {
      SplitWithoutSep(parts[0], sep);
    } else {
      SplitJoin(parts[1..], sep);
      SplitAfterSep(parts[0], Join(parts[1..], [sep]), sep);
      assert [parts[0]] + parts[1..] == parts;
    }
  }

  lemma JoinSplitAt(parts: seq<string>, k: nat, sep: string)
    requires 0 < k < |parts|
    ensures Join(parts, sep) == Join(parts[..k], sep) + sep + Join(parts[k..], sep)
  {
    assert parts[..k] + parts[k..] == parts;
    JoinAppend(parts[..k], parts[k..], sep);
  }

  /** The join of the first `b` parts starts the join of them all. */
  lemma JoinHead(parts: seq<string>, b: nat, sep: string)
    requires 0 < b <= |parts|
    ensures StartsWith(Join(parts, sep), Join(parts[..b], sep))
  {
    if b < |parts| {
      JoinSplitAt(parts, b, sep);
      var h := Join(parts[..b], sep);
      assert Join(parts, sep)[..|h|] == h;
    } else {
      assert parts[..b] == parts;
    }
  }

  /** The join of the parts from `a` on ends the join of them all. */
  lemma JoinTail(parts: seq<string>, a: nat, sep: string)
    requires a < |parts|
    ensures EndsWith(Join(parts, sep), Join(parts[a..], sep))
  {
    if a > 0 {
      JoinSplitAt(parts, a, sep);
      var all, t := Join(parts, sep), Join(parts[a..], sep);
      assert all[|all| - |t|..] == t;
    } else {
      assert parts[a..] == parts;
    }
  }

  /** A join starts with its first part. */
  lemma JoinStartsWith(parts: seq<string>, sep: string)
    requires parts != []
    ensures StartsWith(Join(parts, sep), parts[0])
  {
    JoinHead(parts, 1, sep);
    assert parts[..1] == [parts[0]];
  }

  lemma StartsWithTrans(s: string, t: string, u: string)
    requires StartsWith(s, t) && StartsWith(t, u)
    ensures StartsWith(s, u)
  {
    assert s[..|u|] == s[..|t|][..|u|];
  }

  /**
   * Lines `a .. b-1` of `s`, re-joined, are a piece of `s` whose lines are
   * exactly those lines.
   */
  lemma LinesExcerpt(s: string, a: nat, b: nat)
    requires a < b <= |Split(s, '\n')|
    ensures Split(Join(Split(s, '\n')[a..b], "\n"), '\n') == Split(s, '\n')[a..b]
    ensures Contains(s, Join(Split(s, '\n')[a..b], "\n"))
  {
    var lines := Split(s, '\n');
    var excerpt := Join(lines[a..b], "\n");
    SplitJoin(lines[a..b], '\n');
    JoinSplit(s, '\n');
    JoinTail(lines, a, "\n");
    JoinHead(lines[a..], b - a, "\n");
    assert lines[a..][..b - a] == lines[a..b];
    SuffixPrefixOccurs(s, Join(lines[a..], "\n"), excerpt);
  }

  /**
   * The first `n` lines of `s`, re-joined: a prefix of `s` whose lines are
   * exactly the first `n` lines of `s`.
   */
  function FirstLines(s: string, n: nat): (r: string)
    requires 1 <= n <= |Split(s, '\n')|
    ensures Split(r, '\n') == Split(s, '\n')[..n]
    ensures StartsWith(s, r)
  {
    var lines := Split(s, '\n');
    SplitJoin(lines[..n], '\n');
    JoinSplit(s, '\n');
    JoinHead(lines, n, "\n");
    Join(lines[..n], "\n")
  }

  /** How many whitespace characters `s` starts with. */
  function LeadingSpace(s: string): (n: nat)
    ensures n <= |s| && (forall k :: 0 <= k < n ==> IsSpace(s[k])) && (n < |s| ==> !IsSpace(s[n]))
  {
    if s != [] && IsSpace(s[0]) then
      var n := LeadingSpace(s[1..]);
      assert forall k :: 1 <= k < n + 1 ==> s[k] == s[1..][k - 1];
      n + 1
    else 0
  }

  /** Where the whitespace that `s` ends with begins. */
  function TrailingSpace(s: string): (n: nat)
    ensures n <= |s| && (forall k :: n <= k < |s| ==> IsSpace(s[k])) && (n > 0 ==> !IsSpace(s[n - 1]))
  {
    if s != [] && IsSpace(s[|s| - 1]) then TrailingSpace(s[..|s| - 1]) else |s|
  }

  /** `s.strip()`: `s` without its leading and trailing whitespace. */
  function Strip(s: string): (r: string)
    ensures exists i, j :: 0 <= i <= j <= |s| && r == s[i..j]
                           && (forall k :: 0 <= k < i ==> IsSpace(s[k]))
                           && (forall k :: j <= k < |s| ==> IsSpace(s[k]))
    ensures r == [] || (!IsSpace(r[0]) && !IsSpace(r[|r| - 1]))
  {
    var i := LeadingSpace(s);
    var j := i + TrailingSpace(s[i..]);
    StripSpan(s, i);
    s[i..j]
  }

  /** Cutting the trailing whitespace of `s[i..]` leaves whitespace only after the cut, in terms of `s`. */
  lemma StripSpan(s: string, i: nat)
    requires i <= |s|
    ensures var j := i + TrailingSpace(s[i..]);
            j <= |s| && (forall k :: j <= k < |s| ==> IsSpace(s[k]))
            && (j > i ==> !IsSpace(s[j - 1]))
  {
    var t := s[i..];
    var j := i + TrailingSpace(t);
    forall k | j <= k < |s| ensures IsSpace(s[k]) { assert s[k] == t[k - i]; }
    if j > i { assert s[j - 1] == t[j - 1 - i]; }
  }

  function LowerChar(c: char): char
  {
    if 'A' <= c <= 'Z' then (c as int - 'A' as int + 'a' as int) as char else c
  }

  function UpperChar(c: char): char
  {
    if 'a' <= c <= 'z' then (c as int - 'a' as int + 'A' as int) as char else c
  }

  /** `s.lower()` over ASCII letters. */
  function Lower(s: string): (r: string)
    ensures |r| == |s| && forall k :: 0 <= k < |s| ==> r[k] == LowerChar(s[k])
  {
    seq(|s|, k requires 0 <= k < |s| => LowerChar(s[k]))
  }

  /** `s.capitalize()` over ASCII letters: first character upper case, the rest lower case. */
  function Capitalize(s: string): (r: string)
    ensures |r| == |s|
    ensures s != [] ==> r[0] == UpperChar(s[0]) && r[1..] == Lower(s[1..])
  {
    if s == [] then [] else [UpperChar(s[0])] + Lower(s[1..])
  }

  function DigitChar(d: nat): char
    requires d < 10
  {
    ('0' as int + d) as char
  }

  /** The number a string of decimal digits spells, most significant digit first. */
  function DigitsValue(s: string): int
  {
    if s == [] then 0 else DigitsValue(s[..|s| - 1]) * 10 + (s[|s| - 1] as int - '0' as int)
  }

  /** `str(n)` for a non-negative int: the decimal digits that spell `n`, without leading zeros. */
  function NatToString(n: nat): (r: string)
    ensures |r| >= 1 && forall k :: 0 <= k < |r| ==> '0' <= r[k] <= '9'
    ensures n > 0 ==> r[0] != '0'
    ensures DigitsValue(r) == n
  {
    if n < 10 then [DigitChar(n)]
    else
      var head := NatToString(n / 10);
      var r := head + [DigitChar(n % 10)];
      assert r[..|r| - 1] == head;
      r
  }

  /** Python's clamping of a slice bound `i` against a length `n`. */
  function ClampIndex(i: int, n: nat): (r: nat)
    ensures r <= n
    ensures 0 <= i <= n ==> r == i
  {
    if i < 0 then (if i + n < 0 then 0 else i + n) else if i > n then n else i
  }

  /** `s[i:j]` with Python's handling of negative and out-of-range bounds. */
  function PySlice<T>(s: seq<T>, i: int, j: int): (r: seq<T>)
    ensures 0 <= i <= j <= |s| ==> r == s[i..j]
    ensures 0 <= i && |s| <= j ==> r == s[ClampIndex(i, |s|)..]
    ensures |r| <= |s|
  {
    var a := ClampIndex(i, |s|);
    var b := ClampIndex(j, |s|);
    if a <= b then s[a..b] else []
  }
}
