/**
 * Shared value types and the string operations the Python code relies on
 * (`str.strip`, `str.split`, `str.join`, `in`, `startswith`, `lower`,
 * `upper`, `isdigit`, `isalpha`, `isalnum`).
 *
 * Character classes are restricted to ASCII: `IsSpace` is the ASCII part of
 * Python's `str.isspace` (and of the regular-expression class `\s`), letters
 * and digits are the ASCII ones, and case mapping only touches 'A'..'Z' and
 * 'a'..'z'.
 */
module Common {

  datatype Option<T> = None | Some(value: T)

  datatype Result<T> = Ok(value: T) | Err(error: string)

  /** A byte of file content. */
  newtype Byte = b: int | 0 <= b < 256

  /** What a program finds at a path: nothing, a file it cannot read (with the
      error text), or a file with these bytes. */
  datatype FileState = Missing | Unreadable(reason: string) | Present(bytes: seq<Byte>)

  // ---------------------------------------------------------------------------
  // Characters

  /** ASCII whitespace as Python sees it: space, \t \n \v \f \r and \x1c-\x1f. */
  predicate IsSpace(c: char)
  {
    c == ' ' || c == '\t' || c == '\n' || c == '\r' || c == '\U{0B}' || c == '\U{0C}'
    || ('\U{1C}' <= c <= '\U{1F}')
  }

  predicate IsDigit(c: char) { '0' <= c <= '9' }

  predicate IsUpper(c: char) { 'A' <= c <= 'Z' }

  predicate IsLower(c: char) { 'a' <= c <= 'z' }

  predicate IsAlpha(c: char) { IsUpper(c) || IsLower(c) }

  predicate IsAlnum(c: char) { IsAlpha(c) || IsDigit(c) }

  function LowerChar(c: char): (r: char)
    ensures !IsUpper(r)
    ensures !IsUpper(c) ==> r == c
    ensures IsAlpha(c) <==> IsAlpha(r)
  {
    if IsUpper(c) then (c as int + 32) as char else c
  }

  function UpperChar(c: char): (r: char)
    ensures !IsLower(r)
    ensures !IsLower(c) ==> r == c
    ensures IsAlpha(c) <==> IsAlpha(r)
  {
    if IsLower(c) then (c as int - 32) as char else c
  }

  /** `s.lower()` */
  function Lower(s: string): (r: string)
    ensures |r| == |s|
    ensures forall i :: 0 <= i < |s| ==> r[i] == LowerChar(s[i])
  {
    seq(|s|, i requires 0 <= i < |s| => LowerChar(s[i]))
  }

  /** `s.upper()` */
  function Upper(s: string): (r: string)
    ensures |r| == |s|
    ensures forall i :: 0 <= i < |s| ==> r[i] == UpperChar(s[i])
  {
    seq(|s|, i requires 0 <= i < |s| => UpperChar(s[i]))
  }

  /** `s.isdigit()`: non-empty and all (ASCII) digits. */
  predicate IsDigits(s: string)
  {
    |s| > 0 && forall i :: 0 <= i < |s| ==> IsDigit(s[i])
  }

  /** `s.isalpha()`: non-empty and all (ASCII) letters. */
  predicate IsAlphaString(s: string)
  {
    |s| > 0 && forall i :: 0 <= i < |s| ==> IsAlpha(s[i])
  }

  // ---------------------------------------------------------------------------
  // Prefixes, suffixes, substrings

  predicate StartsWith(s: string, prefix: string)
  {
    |prefix| <= |s| && s[..|prefix|] == prefix
  }

  predicate EndsWith(s: string, suffix: string)
  {
    |suffix| <= |s| && s[|s| - |suffix|..] == suffix
  }

  /** `sub` occurs in `s` starting at index `i`. */
  predicate OccursAt(s: string, sub: string, i: int)
  {
    0 <= i <= |s| - |sub| && s[i..i + |sub|] == sub
  }

  /** `sub in s` for strings. */
  ghost predicate Contains(s: string, sub: string)
  {
    exists i :: OccursAt(s, sub, i)
  }

  /** An executable search for `sub in s` from index `i` on. */
  function ContainsFrom(s: string, sub: string, i: nat): (r: bool)
    requires i <= |s|
    ensures r <==> exists j :: i <= j && OccursAt(s, sub, j)
    decreases |s| - i
  {
    if i + |sub| > |s| then false
    else if s[i..i + |sub|] == sub then assert OccursAt(s, sub, i); true
    else
      assert forall j :: i <= j && OccursAt(s, sub, j) ==> j == i || i + 1 <= j;
      ContainsFrom(s, sub, i + 1)
  }

  function Find(s: string, sub: string): (r: bool)
    ensures r <==> Contains(s, sub)
  {
    ContainsFrom(s, sub, 0)
  }

  // ---------------------------------------------------------------------------
  // Stripping

  /** `s.lstrip(chars)` where `chars` is given as a predicate. */
  function LStripBy(s: string, drop: char -> bool): (r: string)
    ensures |r| <= |s| && r == s[|s| - |r|..]
    ensures r != [] ==> !drop(r[0])
    ensures forall i :: 0 <= i < |s| - |r| ==> drop(s[i])
  {
    if s != [] && drop(s[0]) then LStripBy(s[1..], drop) else s
  }

  /** `s.rstrip(chars)` where `chars` is given as a predicate. */
  function RStripBy(s: string, drop: char -> bool): (r: string)
    ensures |r| <= |s| && r == s[..|r|]
    ensures r != [] ==> !drop(r[|r| - 1])
    ensures forall i :: |r| <= i < |s| ==> drop(s[i])
  {
    if s != [] && drop(s[|s| - 1]) then RStripBy(s[..|s| - 1], drop) else s
  }

  function StripBy(s: string, drop: char -> bool): (r: string)
    ensures |r| <= |s|
    ensures r != [] ==> !drop(r[0]) && !drop(r[|r| - 1])
    ensures (forall i :: 0 <= i < |s| ==> drop(s[i])) <==> r == []
  {
    var l := LStripBy(s, drop);
    RStripBy(l, drop)
  }

  /** Where the stripped text starts in `s`: `StripBy` returns a slice of `s`. */
  function StripStart(s: string, drop: char -> bool): (i: nat)
    ensures i + |StripBy(s, drop)| <= |s|
    ensures StripBy(s, drop) == s[i..i + |StripBy(s, drop)|]
  {
    StripBySlice(s, drop);
    |s| - |LStripBy(s, drop)|
  }

  lemma StripBySlice(s: string, drop: char -> bool)
    ensures |s| - |LStripBy(s, drop)| + |StripBy(s, drop)| <= |s|
    ensures StripBy(s, drop)
      == s[|s| - |LStripBy(s, drop)|..|s| - |LStripBy(s, drop)| + |StripBy(s, drop)|]
  {
    var l := LStripBy(s, drop);
    var r := RStripBy(l, drop);
    var i := |s| - |l|;
    assert l == s[i..] && r == l[..|r|];
    assert s[i..][..|r|] == s[i..i + |r|];
  }

  /** `s.strip()` */
  function Strip(s: string): (r: string)
    ensures |r| <= |s|
    ensures r != [] ==> !IsSpace(r[0]) && !IsSpace(r[|r| - 1])
    ensures (forall i :: 0 <= i < |s| ==> IsSpace(s[i])) <==> r == []
  {
    StripBy(s, IsSpace)
  }

  lemma StripOfStripped(s: string)
    requires s == [] || (!IsSpace(s[0]) && !IsSpace(s[|s| - 1]))
    ensures Strip(s) == s
  {
  }

  predicate AllSpace(w: string)
  {
    forall i :: 0 <= i < |w| ==> IsSpace(w[i])
  }

  lemma {:induction false} LStripSpacePrefix(w: string, x: string)
    requires AllSpace(w)
    ensures LStripBy(w + x, IsSpace) == LStripBy(x, IsSpace)
  {
    if w == [] {
      assert w + x == x;
    } else {
      assert (w + x)[0] == w[0];
      assert (w + x)[1..] == w[1..] + x;
      assert LStripBy(w + x, IsSpace) == LStripBy(w[1..] + x, IsSpace);
      LStripSpacePrefix(w[1..], x);
    }
  }

  lemma {:induction false} LStripAppend(x: string, w: string)
    ensures LStripBy(x + w, IsSpace)
      == if LStripBy(x, IsSpace) == [] then LStripBy(w, IsSpace) else LStripBy(x, IsSpace) + w
  {
    if x == [] {
      assert x + w == w;
    } else if IsSpace(x[0]) {
      assert (x + w)[1..] == x[1..] + w;
      assert LStripBy(x + w, IsSpace) == LStripBy(x[1..] + w, IsSpace);
      LStripAppend(x[1..], w);
      assert LStripBy(x, IsSpace) == LStripBy(x[1..], IsSpace);
    } else {
      assert (x + w)[0] == x[0];
      assert LStripBy(x + w, IsSpace) == x + w;
      assert LStripBy(x, IsSpace) == x;
    }
  }

  lemma {:induction false} RStripSpaceSuffix(y: string, w: string)
    requires AllSpace(w)
    ensures RStripBy(y + w, IsSpace) == RStripBy(y, IsSpace)
  {
    if w == [] {
      assert y + w == y;
    } else {
      RStripSpaceSuffix(y, w[..|w| - 1]);
      assert (y + w)[..|y + w| - 1] == y + w[..|w| - 1];
    }
  }

  /** Whitespace around a text does not change what `strip` gives. */
  lemma StripSpaceAround(w1: string, x: string, w2: string)
    requires AllSpace(w1) && AllSpace(w2)
    ensures Strip(w1 + x + w2) == Strip(x)
  {
    assert w1 + x + w2 == w1 + (x + w2);
    LStripSpacePrefix(w1, x + w2);
    LStripAppend(x, w2);
    if LStripBy(x, IsSpace) != [] {
      RStripSpaceSuffix(LStripBy(x, IsSpace), w2);
    }
  }

  /** A text is its leading whitespace, its stripped form and its trailing
      whitespace. */
  lemma StripParts(s: string) returns (w1: string, w2: string)
    ensures AllSpace(w1) && AllSpace(w2)
    ensures s == w1 + Strip(s) + w2
  {
    w1 := LeadingSpace(s);
    w2 := TrailingSpace(LStripBy(s, IsSpace));
  }

  lemma LeadingSpace(s: string) returns (w: string)
    ensures AllSpace(w) && s == w + LStripBy(s, IsSpace)
  {
    var l := LStripBy(s, IsSpace);
    w := s[..|s| - |l|];
    forall i | 0 <= i < |w|
      ensures IsSpace(w[i])
    {
      assert w[i] == s[i];
    }
  }

  lemma TrailingSpace(s: string) returns (w: string)
    ensures AllSpace(w) && s == RStripBy(s, IsSpace) + w
  {
    var r := RStripBy(s, IsSpace);
    w := s[|r|..];
    forall i | 0 <= i < |w|
      ensures IsSpace(w[i])
    {
      assert w[i] == s[|r| + i];
    }
  }

  lemma StripIdempotent(s: string)
    ensures Strip(Strip(s)) == Strip(s)
  {
    StripOfStripped(Strip(s));
  }

  /** `s.replace(a, b)` for single characters. */
  function ReplaceChar(s: string, a: char, b: char): (r: string)
    ensures |r| == |s|
    ensures forall i :: 0 <= i < |s| ==> r[i] == (if s[i] == a then b else s[i])
  {
    seq(|s|, i requires 0 <= i < |s| => if s[i] == a then b else s[i])
  }

  /** `s.replace(a, "")` for a single character. */
  function RemoveChar(s: string, a: char): (r: string)
    ensures |r| <= |s|
    ensures a !in r
    ensures forall i :: 0 <= i < |r| ==> r[i] in s
    ensures a !in s ==> r == s
  {
    if s == [] then [] else if s[0] == a then RemoveChar(s[1..], a) else [s[0]] + RemoveChar(s[1..], a)
  }

  // ---------------------------------------------------------------------------
  // Splitting and joining

  /** `s.split(sep)` for a one-character separator: never empty, and the pieces
      contain no separator. */
  function Split(s: string, sep: char): (r: seq<string>)
    ensures |r| >= 1
    ensures forall k :: 0 <= k < |r| ==> sep !in r[k]
  {
    if s == [] then [""]
    else if s[0] == sep then [""] + Split(s[1..], sep)
    else
      var rest := Split(s[1..], sep);
      [[s[0]] + rest[0]] + rest[1..]
  }

  /** `sep.join(parts)` */
  function Join(parts: seq<string>, sep: string): string
  {
    if |parts| == 0 then ""
    else if |parts| == 1 then parts[0]
    else parts[0] + sep + Join(parts[1..], sep)
  }

  /** Joining one more piece adds the separator and the piece at the end. */
  lemma {:induction false} JoinSnoc(parts: seq<string>, last: string, sep: string)
    requires |parts| >= 1
    ensures Join(parts + [last], sep) == Join(parts, sep) + sep + last
  {
    if |parts| == 1 {
      assert (parts + [last])[1..] == [last];
    } else {
      JoinSnoc(parts[1..], last, sep);
      assert (parts + [last])[1..] == parts[1..] + [last];
    }
  }

  lemma {:induction false} SplitNoSep(a: string, sep: char)
    requires sep !in a
    ensures Split(a, sep) == [a]
  {
    if a != [] {
      SplitNoSep(a[1..], sep);
      assert [a[0]] + a[1..] == a;
    }
  }

  lemma {:induction false} SplitSeparated(a: string, sep: char, b: string)
    requires sep !in a
    ensures Split(a + [sep] + b, sep) == [a] + Split(b, sep)
  {
    if a == [] {
      assert a + [sep] + b == [sep] + b;
      assert ([sep] + b)[1..] == b;
    } else {
      SplitSeparated(a[1..], sep, b);
      assert (a + [sep] + b)[1..] == a[1..] + [sep] + b;
      assert [a[0]] + a[1..] == a;
    }
  }

  /** Splitting a joined list gives the list back when no piece holds the separator. */
  lemma {:induction false} SplitJoin(parts: seq<string>, sep: char)
    requires |parts| >= 1
    requires forall k :: 0 <= k < |parts| ==> sep !in parts[k]
    ensures Split(Join(parts, [sep]), sep) == parts
  {
    if |parts| == 1 {
      SplitNoSep(parts[0], sep);
    } else {
      SplitJoin(parts[1..], sep);
      SplitSeparated(parts[0], sep, Join(parts[1..], [sep]));
      assert parts == [parts[0]] + parts[1..];
    }
  }

  /** Text without a separator in front of `t` joins the first piece. */
  lemma {:induction false} SplitPrepend(w: string, t: string, sep: char)
    requires sep !in w
    ensures Split(w + t, sep) == [w + Split(t, sep)[0]] + Split(t, sep)[1..]
  {
    if w == [] {
      assert w + t == t;
      assert w + Split(t, sep)[0] == Split(t, sep)[0];
      assert Split(t, sep) == [Split(t, sep)[0]] + Split(t, sep)[1..];
    } else {
      SplitPrepend(w[1..], t, sep);
      assert (w + t)[1..] == w[1..] + t;
      assert [w[0]] + (w[1..] + Split(t, sep)[0]) == w + Split(t, sep)[0];
    }
  }

  /** Text without a separator after `s` joins the last piece. */
  lemma {:induction false} SplitAppend(s: string, w: string, sep: char)
    requires sep !in w
    ensures var q := Split(s, sep); Split(s + w, sep) == q[..|q| - 1] + [q[|q| - 1] + w]
  {
    if s == [] {
      SplitNoSep(w, sep);
      assert s + w == w;
    } else {
      SplitAppend(s[1..], w, sep);
      assert (s + w)[1..] == s[1..] + w;
      if s[0] == sep {
        SplitAppendAfterSep(s, w, sep);
      } else {
        SplitAppendAfterChar(s, w, sep);
      }
    }
  }

  lemma SplitAppendAfterSep(s: string, w: string, sep: char)
    requires s != [] && s[0] == sep && (s + w)[1..] == s[1..] + w
    requires var q1 := Split(s[1..], sep); Split(s[1..] + w, sep) == q1[..|q1| - 1] + [q1[|q1| - 1] + w]
    ensures var q := Split(s, sep); Split(s + w, sep) == q[..|q| - 1] + [q[|q| - 1] + w]
  {
    var q1 := Split(s[1..], sep);
    var q := Split(s, sep);
    assert q == [""] + q1;
    assert q[..|q| - 1] == [""] + q1[..|q1| - 1];
  }

  lemma SplitAppendAfterChar(s: string, w: string, sep: char)
    requires s != [] && s[0] != sep && (s + w)[1..] == s[1..] + w
    requires var q1 := Split(s[1..], sep); Split(s[1..] + w, sep) == q1[..|q1| - 1] + [q1[|q1| - 1] + w]
    ensures var q := Split(s, sep); Split(s + w, sep) == q[..|q| - 1] + [q[|q| - 1] + w]
  {
    var q1 := Split(s[1..], sep);
    var q := Split(s, sep);
    var r := Split(s[1..] + w, sep);
    assert (s + w)[0] == s[0];
    assert Split(s + w, sep) == [[s[0]] + r[0]] + r[1..];
    assert q == [[s[0]] + q1[0]] + q1[1..];
    if |q1| == 1 {
      assert r == [q1[0] + w];
      assert [s[0]] + (q1[0] + w) == [s[0]] + q1[0] + w;
    } else {
      assert r[0] == q1[0];
      assert r[1..] == q1[1..|q1| - 1] + [q1[|q1| - 1] + w];
      assert q[..|q| - 1] == [[s[0]] + q1[0]] + q1[1..|q1| - 1];
    }
  }

  function Filter<T>(xs: seq<T>, keep: T -> bool): (r: seq<T>)
    ensures |r| <= |xs|
    ensures forall k :: 0 <= k < |r| ==> keep(r[k]) && r[k] in xs
  {
    if xs == [] then []
    else if keep(xs[0]) then [xs[0]] + Filter(xs[1..], keep)
    else Filter(xs[1..], keep)
  }

  lemma {:induction false} FilterAll<T>(xs: seq<T>, keep: T -> bool)
    requires forall k :: 0 <= k < |xs| ==> keep(xs[k])
    ensures Filter(xs, keep) == xs
  {
    if xs != [] {
      FilterAll(xs[1..], keep);
    }
  }

  lemma {:induction false} FilterConcat<T>(xs: seq<T>, ys: seq<T>, keep: T -> bool)
    ensures Filter(xs + ys, keep) == Filter(xs, keep) + Filter(ys, keep)
  {
    if xs == [] {
      assert xs + ys == ys;
    } else {
      var zs := xs + ys;
      assert zs[0] == xs[0] && zs[1..] == xs[1..] + ys;
      FilterConcat(xs[1..], ys, keep);
      var f, g := Filter(xs[1..], keep), Filter(ys, keep);
      assert keep(xs[0]) ==> Filter(zs, keep) == [xs[0]] + (f + g) == ([xs[0]] + f) + g;
    }
  }

  /** `a` is `b` with some elements left out, order kept. */
  predicate Subsequence<T(==)>(a: seq<T>, b: seq<T>)
    decreases |b|
  {
    a == [] || (b != [] && ((a[0] == b[0] && Subsequence(a[1..], b[1..])) || Subsequence(a, b[1..])))
  }

  lemma {:induction false} FilterSubsequence<T>(xs: seq<T>, keep: T -> bool)
    ensures Subsequence(Filter(xs, keep), xs)
  {
    if xs != [] {
      FilterSubsequence(xs[1..], keep);
      if keep(xs[0]) {
        assert Filter(xs, keep)[1..] == Filter(xs[1..], keep);
      }
    }
  }

  lemma {:induction false} FilterMember<T>(xs: seq<T>, keep: T -> bool, x: T)
    ensures x in Filter(xs, keep) <==> x in xs && keep(x)
  {
    if xs != [] {
      FilterMember(xs[1..], keep, x);
      assert x in xs <==> x == xs[0] || x in xs[1..];
    }
  }

  /** Two filters applied one after the other commute. */
  lemma {:induction false} FilterCommute<T>(xs: seq<T>, p: T -> bool, q: T -> bool)
    ensures Filter(Filter(xs, p), q) == Filter(Filter(xs, q), p)
  {
    if xs != [] {
      var x, rest := xs[0], xs[1..];
      FilterCommute(rest, p, q);
      FilterStep(x, Filter(rest, p), q);
      FilterStep(x, Filter(rest, q), p);
    }
  }

  lemma FilterStep<T>(x: T, ys: seq<T>, keep: T -> bool)
    ensures Filter([x] + ys, keep) == (if keep(x) then [x] else []) + Filter(ys, keep)
  {
    assert ([x] + ys)[1..] == ys;
  }

  /** Filtering twice by the same test is filtering once. */
  lemma FilterIdempotent<T>(xs: seq<T>, keep: T -> bool)
    ensures Filter(Filter(xs, keep), keep) == Filter(xs, keep)
  {
    FilterAll(Filter(xs, keep), keep);
  }

  /** Two filters applied again after each other change nothing more. */
  lemma FilterPairIdempotent<T>(xs: seq<T>, p: T -> bool, q: T -> bool)
    ensures Filter(Filter(Filter(Filter(xs, p), q), p), q) == Filter(Filter(xs, p), q)
  {
    var a := Filter(xs, p);
    FilterCommute(a, q, p);
    FilterIdempotent(xs, p);
    FilterIdempotent(a, q);
  }

  function Map<T, U>(xs: seq<T>, f: T -> U): (r: seq<U>)
    ensures |r| == |xs|
    ensures forall k :: 0 <= k < |xs| ==> r[k] == f(xs[k])
  {
    if xs == [] then [] else [f(xs[0])] + Map(xs[1..], f)
  }

  // ---------------------------------------------------------------------------
  // Numbers as text

  function DigitChar(d: nat): (c: char)
    requires d < 10
    ensures IsDigit(c)
  {
    ('0' as int + d) as char
  }

  /** `str(n)` for a natural number. */
  function NatToString(n: nat): (r: string)
    ensures IsDigits(r)
    decreases n
  {
    if n < 10 then [DigitChar(n)] else NatToString(n / 10) + [DigitChar(n % 10)]
  }

  /** `str(i)` for an integer. */
  function IntToString(i: int): (r: string)
    ensures |r| > 0
    ensures i >= 0 ==> IsDigits(r)
    ensures i < 0 ==> r[0] == '-'
  {
    if i >= 0 then NatToString(i) else "-" + NatToString(-i)
  }

  function DigitValue(c: char): nat
    requires IsDigit(c)
  {
    c as int - '0' as int
  }

  /** The value of a string of decimal digits. */
  function DigitsValue(s: string): nat
    requires forall i :: 0 <= i < |s| ==> IsDigit(s[i])
  {
    if s == [] then 0 else DigitsValue(s[..|s| - 1]) * 10 + DigitValue(s[|s| - 1])
  }

  function Min(a: int, b: int): int { if a <= b then a else b }

  function MinReal(a: real, b: real): real { if a <= b then a else b }
}
