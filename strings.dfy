/** The JavaScript string operations the core relies on: `split` on one character,
    `join`, `pop`, `startsWith`, `replace` with a string pattern, the `<`/`>` comparison of strings (code-unit
    lexicographic order) and decimal rendering of a count inside a template string. */
module Strings {
  import opened Seqs

  /** `a || b` on a string that may be missing: a missing or empty string is falsy. */
  function OrElse(a: Option<string>, b: string): string
  {
    if a.Some? && a.value != "" then a.value else b
  }

  /** `s.split(c)`: always at least one part; a separator at either end or two
      adjacent separators give an empty part. */
  function Split(s: string, c: char): (parts: seq<string>)
    ensures |parts| >= 1
    ensures forall i :: 0 <= i < |parts| ==> c !in parts[i]
  {
    if s == [] then [[]]
    else
      var parts := Split(Init(s), c);
      if Last(s) == c then parts + [[]]
      else Init(parts) + [Last(parts) + [Last(s)]]
  }

  /** `parts.join(c)`. */
  function Join(parts: seq<string>, c: char): string
  {
    if parts == [] then []
    else if |parts| == 1 then parts[0]
    else Join(Init(parts), c) + [c] + Last(parts)
  }

  /** Joining the parts with the same separator gives back the string. */
  lemma {:induction false} JoinSplit(s: string, c: char)
    ensures Join(Split(s, c), c) == s
    decreases |s|
  {
    if s != [] {
      var parts := Split(Init(s), c);
      JoinSplit(Init(s), c);
      InitOfSnoc(parts, []);
      if Last(s) != c {
        var q := Init(parts) + [Last(parts) + [Last(s)]];
        InitOfSnoc(Init(parts), Last(parts) + [Last(s)]);
        assert parts == Init(parts) + [Last(parts)];
        if |parts| == 1 {
          assert Join(q, c) == Last(parts) + [Last(s)];
        } else {
          assert Join(parts, c) == Join(Init(parts), c) + [c] + Last(parts);
          assert Join(q, c) == Join(Init(parts), c) + [c] + (Last(parts) + [Last(s)]);
        }
        assert s == Init(s) + [Last(s)];
      } else {
        assert s == Init(s) + [c];
      }
    }
  }

  /** Splitting a string that has no separator yields the string itself. */
  lemma {:induction false} SplitNoSeparator(s: string, c: char)
    requires c !in s
    ensures Split(s, c) == [s]
    decreases |s|
  {
    if s != [] {
      assert c !in Init(s) by { assert s == Init(s) + [Last(s)]; }
      SplitNoSeparator(Init(s), c);
      assert s == Init(s) + [Last(s)];
    }
  }

  /** Splitting at a separator splits each side independently. */
  lemma {:induction false} SplitConcat(s: string, t: string, c: char)
    ensures Split(s + [c] + t, c) == Split(s, c) + Split(t, c)
    decreases |t|
  {
    if t == [] {
      assert s + [c] + t == s + [c];
      InitOfSnoc(s, c);
    } else {
      var u := s + [c] + Init(t);
      assert s + [c] + t == u + [Last(t)];
      InitOfSnoc(u, Last(t));
      SplitConcat(s, Init(t), c);
      var p, q := Split(s, c), Split(Init(t), c);
      var x := Last(t);
      if x == c {
        assert Split(u + [x], c) == (p + q) + [[]];
        assert Split(t, c) == q + [[]];
      } else {
        InitOfSnoc(p + Init(q), Last(q));
        assert p + q == (p + Init(q)) + [Last(q)];
        assert Split(u + [x], c) == (p + Init(q)) + [Last(q) + [x]];
        assert Split(t, c) == Init(q) + [Last(q) + [x]];
      }
    }
  }

  /** A leading part without separator splits off as one part. */
  lemma SplitLeadingPart(a: string, t: string, c: char)
    requires c !in a
    ensures Split(a + [c] + t, c) == [a] + Split(t, c)
  {
    SplitConcat(a, t, c);
    SplitNoSeparator(a, c);
  }

  /** `parts.slice(n)`. */
  function Drop<T>(parts: seq<T>, n: nat): seq<T>
  {
    if |parts| <= n then [] else parts[n..]
  }

  /** `s.startsWith(prefix)`. */
  predicate StartsWith(s: string, prefix: string)
  {
    |prefix| <= |s| && s[..|prefix|] == prefix
  }

  /** `a < b` on JavaScript strings. */
  predicate LexLess(a: string, b: string)
    decreases |a|
  {
    if a == [] then b != []
    else if b == [] then false
    else if a[0] == b[0] then LexLess(a[1..], b[1..])
    else a[0] < b[0]
  }

  lemma {:induction false} LexLessIrreflexive(a: string)
    ensures !LexLess(a, a)
    decreases |a|
  {
    if a != [] {
      LexLessIrreflexive(a[1..]);
    }
  }

  lemma {:induction false} LexLessTransitive(a: string, b: string, c: string)
    requires LexLess(a, b) && LexLess(b, c)
    ensures LexLess(a, c)
    decreases |a|
  {
    if a != [] && b != [] && c != [] && a[0] == b[0] && b[0] == c[0] {
      LexLessTransitive(a[1..], b[1..], c[1..]);
    }
  }

  lemma {:induction false} LexLessTotal(a: string, b: string)
    requires a != b
    ensures LexLess(a, b) || LexLess(b, a)
    decreases |a|
  {
    if a != [] && b != [] && a[0] == b[0] {
      assert a == [a[0]] + a[1..] && b == [b[0]] + b[1..];
      LexLessTotal(a[1..], b[1..]);
    }
  }

  lemma {:induction false} LexLessAsymmetric(a: string, b: string)
    requires LexLess(a, b)
    ensures !LexLess(b, a)
    decreases |a|
  {
    if a != [] && b != [] && a[0] == b[0] {
      LexLessAsymmetric(a[1..], b[1..]);
    }
  }

  /** Comparing two strings that start with the same prefix compares what follows. */
  lemma {:induction false} LexLessCommonPrefix(p: string, a: string, b: string)
    ensures LexLess(p + a, p + b) <==> LexLess(a, b)
    decreases |p|
  {
    if p != [] {
      assert (p + a)[0] == p[0] && (p + b)[0] == p[0];
      assert (p + a)[1..] == p[1..] + a;
      assert (p + b)[1..] == p[1..] + b;
      LexLessCommonPrefix(p[1..], a, b);
    } else {
      assert p + a == a && p + b == b;
    }
  }

  /** Between two strings of equal length that differ, the first difference decides,
      whatever follows. */
  lemma {:induction false} LexLessEqualLength(a: string, b: string, x: string, y: string)
    requires |a| == |b| && a != b
    ensures LexLess(a + x, b + y) <==> LexLess(a, b)
    decreases |a|
  {
    assert (a + x)[0] == a[0] && (b + y)[0] == b[0];
    if a[0] == b[0] {
      assert a == [a[0]] + a[1..] && b == [b[0]] + b[1..];
      assert (a + x)[1..] == a[1..] + x;
      assert (b + y)[1..] == b[1..] + y;
      LexLessEqualLength(a[1..], b[1..], x, y);
    }
  }

  function DigitChar(d: nat): char
    requires d < 10
  {
    "0123456789"[d]
  }

  function DigitValue(c: char): nat
  {
    if '0' <= c <= '9' then (c as int - '0' as int) as nat else 0
  }

  predicate IsDigit(c: char)
  {
    '0' <= c <= '9'
  }

  lemma DigitRoundTrip(d: nat)
    requires d < 10
    ensures IsDigit(DigitChar(d)) && DigitValue(DigitChar(d)) == d
  {
  }

  /** Lexicographic order of single digits is their numeric order. */
  lemma DigitOrder(d: nat, e: nat)
    requires d < 10 && e < 10
    ensures DigitChar(d) < DigitChar(e) <==> d < e
    ensures DigitChar(d) == DigitChar(e) <==> d == e
  {
  }

  /** `${n}` for a non-negative integer. */
  function NatToString(n: nat): (s: string)
    ensures |s| >= 1 && forall i :: 0 <= i < |s| ==> IsDigit(s[i])
  {
    if n < 10 then [DigitChar(n)] else NatToString(n / 10) + [DigitChar(n % 10)]
  }

  /** The value of a string of decimal digits. */
  function DecimalValue(s: string): nat
  {
    if s == [] then 0 else DecimalValue(Init(s)) * 10 + DigitValue(Last(s))
  }

  lemma {:induction false} NatToStringRoundTrip(n: nat)
    ensures DecimalValue(NatToString(n)) == n
    decreases n
  {
    if n >= 10 {
      NatToStringRoundTrip(n / 10);
      InitOfSnoc(NatToString(n / 10), DigitChar(n % 10));
    }
  }

  /** `s.replace(pat, rep)` with a string pattern: only the first occurrence is replaced. */
  function ReplaceFirst(s: string, pat: string, rep: string): string
    decreases |s|
  {
    if StartsWith(s, pat) then rep + s[|pat|..]
    else if s == [] then []
    else [s[0]] + ReplaceFirst(s[1..], pat, rep)
  }

  /** The pattern occurs at i and nowhere before: the replacement takes its place there. */
  lemma {:induction false} ReplaceFirstAt(s: string, pat: string, rep: string, i: nat)
    requires i <= |s| && StartsWith(s[i..], pat)
    requires forall j :: 0 <= j < i ==> !StartsWith(s[j..], pat)
    ensures ReplaceFirst(s, pat, rep) == s[..i] + rep + s[i + |pat|..]
    decreases i
  {
    assert s[0..] == s;
    if i > 0 {
      ShiftOccurrence(s, pat, i);
      ReplaceFirstAt(s[1..], pat, rep, i - 1);
      ReplaceFirstStep(s, pat, rep);
      ShiftSlices(s, i, |pat|);
    }
  }

  lemma ReplaceFirstStep(s: string, pat: string, rep: string)
    requires s != [] && !StartsWith(s, pat)
    ensures ReplaceFirst(s, pat, rep) == [s[0]] + ReplaceFirst(s[1..], pat, rep)
  {
  }

  lemma ShiftOccurrence(s: string, pat: string, i: nat)
    requires 0 < i <= |s| && StartsWith(s[i..], pat)
    requires forall j :: 0 <= j < i ==> !StartsWith(s[j..], pat)
    ensures StartsWith(s[1..][i - 1..], pat)
    ensures forall j :: 0 <= j < i - 1 ==> !StartsWith(s[1..][j..], pat)
  {
    assert s[1..][i - 1..] == s[i..];
    forall j | 0 <= j < i - 1 ensures !StartsWith(s[1..][j..], pat) {
      assert s[1..][j..] == s[j + 1..];
    }
  }

  lemma ShiftSlices(s: string, i: nat, n: nat)
    requires 0 < i && i + n <= |s|
    ensures [s[0]] + s[1..][..i - 1] == s[..i]
    ensures s[1..][i - 1 + n..] == s[i + n..]
  {
  }

  /** The pattern occurs nowhere in s. */
  predicate Absent(s: string, pat: string)
  {
    forall j :: 0 <= j <= |s| ==> !StartsWith(s[j..], pat)
  }

  /** A string in which the pattern does not occur is left as it is. */
  lemma {:induction false} ReplaceFirstAbsent(s: string, pat: string, rep: string)
    requires Absent(s, pat)
    ensures ReplaceFirst(s, pat, rep) == s
    decreases |s|
  {
    assert s[0..] == s;
    if s != [] {
      forall j | 0 <= j <= |s| - 1 ensures !StartsWith(s[1..][j..], pat) {
        assert s[1..][j..] == s[j + 1..];
      }
      ReplaceFirstAbsent(s[1..], pat, rep);
      assert [s[0]] + s[1..] == s;
    }
  }
}
