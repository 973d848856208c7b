/**
 * Python's `int(s)` and `float(s)` on strings, restricted to the decimal
 * forms: surrounding whitespace, an optional sign, ASCII digits, and for
 * `float` an optional decimal point.  Underscores between digits, exponents,
 * "inf" and "nan" are not part of this model.
 */
module Numbers {
  import opened Common

  /** A string of ASCII digits, possibly empty. */
  predicate AllDigits(s: string)
  {
    forall i :: 0 <= i < |s| ==> IsDigit(s[i])
  }

  function Pow10(k: nat): (r: nat)
    ensures r >= 1
  {
    if k == 0 then 1 else 10 * Pow10(k - 1)
  }

  predicate IsSign(c: char) { c == '+' || c == '-' }

  /** The sign and the unsigned text of a stripped number. */
  function SplitSign(t: string): (r: (bool, string))
    ensures |r.1| <= |t|
    ensures t != [] && IsSign(t[0]) ==> r == (t[0] == '-', t[1..])
    ensures t == [] || !IsSign(t[0]) ==> r == (false, t)
  {
    if t != [] && IsSign(t[0]) then (t[0] == '-', t[1..]) else (false, t)
  }

  /** `int(s)`: `None` stands for the ValueError. */
  function ParseInt(s: string): (r: Option<int>)
    ensures r.Some? <==> IsDigits(SplitSign(Strip(s)).1)
  {
    IntOfText(Strip(s))
  }

  /** `int` on text without surrounding whitespace. */
  function IntOfText(t: string): (r: Option<int>)
    ensures r.Some? <==> IsDigits(SplitSign(t).1)
    ensures r.Some? ==> var (neg, body) := SplitSign(t);
      r.value == if neg then -(DigitsValue(body) as int) else DigitsValue(body) as int
  {
    var (neg, body) := SplitSign(t);
    if !IsDigits(body) then None
    else if neg then Some(-(DigitsValue(body) as int))
    else Some(DigitsValue(body) as int)
  }

  /** The index of the first '.' in `s`, or `|s|`. */
  function DotIndex(s: string): (i: nat)
    ensures i <= |s|
    ensures i < |s| ==> s[i] == '.'
    ensures forall j :: 0 <= j < i ==> s[j] != '.'
  {
    if s == [] then 0 else if s[0] == '.' then 0 else 1 + DotIndex(s[1..])
  }

  /** The value of digits before and after a decimal point. */
  function DecimalValue(whole: string, frac: string): real
    requires AllDigits(whole) && AllDigits(frac)
  {
    DigitsValue(whole) as real + DigitsValue(frac) as real / Pow10(|frac|) as real
  }

  /** The unsigned decimal text: digits, optionally one '.' and more digits,
      and at least one digit in all. */
  predicate DecimalText(body: string)
  {
    var i := DotIndex(body);
    AllDigits(body[..i]) && (i == |body| || AllDigits(body[i + 1..]))
    && (i > 0 || i + 1 < |body|)
  }

  /** `float(s)` for decimal text: `None` stands for the ValueError. */
  function ParseFloat(s: string): (r: Option<real>)
    ensures r.Some? <==> DecimalText(SplitSign(Strip(s)).1)
  {
    RealOfText(Strip(s))
  }

  /** `float` on text without surrounding whitespace. */
  function RealOfText(t: string): (r: Option<real>)
    ensures r.Some? <==> DecimalText(SplitSign(t).1)
  {
    var (neg, body) := SplitSign(t);
    var i := DotIndex(body);
    if !AllDigits(body[..i]) then None
    else if i == |body| then
      (if i == 0 then None else Some(if neg then -(DigitsValue(body) as real) else DigitsValue(body) as real))
    else if !AllDigits(body[i + 1..]) || (i == 0 && i + 1 == |body|) then None
    else
      var v := DecimalValue(body[..i], body[i + 1..]);
      Some(if neg then -v else v)
  }

  lemma {:induction false} DigitsOfNat(n: nat)
    ensures AllDigits(NatToString(n)) && DigitsValue(NatToString(n)) == n
    decreases n
  {
    var s := NatToString(n);
    if n >= 10 {
      DigitsOfNat(n / 10);
      assert s[..|s| - 1] == NatToString(n / 10);
    }
  }

  /** `int(str(i)) == i` */
  lemma ParseIntOfString(i: int)
    ensures ParseInt(IntToString(i)) == Some(i)
  {
    StripIntString(i);
    IntOfTextOfString(i);
  }

  lemma StripIntString(i: int)
    ensures Strip(IntToString(i)) == IntToString(i)
  {
    var s := IntToString(i);
    var d := NatToString(if i >= 0 then i else -i);
    assert s[|s| - 1] == d[|d| - 1];
    assert IsDigit(s[|s| - 1]);
    StripOfStripped(s);
  }

  lemma IntOfTextOfString(i: int)
    ensures IntOfText(IntToString(i)) == Some(i)
  {
    var s := IntToString(i);
    if i >= 0 {
      DigitsOfNat(i);
    } else {
      DigitsOfNat(-i);
      assert s[1..] == NatToString(-i);
    }
  }

  /** Every text `int` accepts, `float` accepts with the same value. */
  lemma ParseIntIsFloat(s: string)
    requires ParseInt(s).Some?
    ensures ParseFloat(s) == Some(ParseInt(s).value as real)
  {
    IntTextIsReal(Strip(s));
  }

  lemma IntTextIsReal(t: string)
    requires IntOfText(t).Some?
    ensures RealOfText(t) == Some(IntOfText(t).value as real)
  {
    var body := SplitSign(t).1;
    assert DotIndex(body) == |body|;
    assert body[..|body|] == body;
  }

  /** Surrounding whitespace does not change either parse. */
  lemma ParseIgnoresSpace(s: string)
    ensures ParseInt(" " + s + " ") == ParseInt(s)
    ensures ParseFloat(" " + s + " ") == ParseFloat(s)
  {
    StripPadded(s);
  }

  lemma StripPadded(s: string)
    ensures Strip(" " + s + " ") == Strip(s)
  {
    var p := " " + s + " ";
    assert LStripBy(p, IsSpace) == LStripBy(s + " ", IsSpace) by {
      assert p[1..] == s + " ";
    }
    LStripPadded(s);
    RStripSpace(LStripBy(s, IsSpace));
    if LStripBy(s, IsSpace) == [] {
      assert LStripBy(s + " ", IsSpace) == [];
    }
  }

  /** Stripping the front of `s + " "` keeps the trailing space unless all of
      `s` is blank. */
  lemma {:induction false} LStripPadded(s: string)
    ensures LStripBy(s + " ", IsSpace) == (if LStripBy(s, IsSpace) == [] then [] else LStripBy(s, IsSpace) + " ")
  {
    if s == [] {
      assert LStripBy(" ", IsSpace) == LStripBy([], IsSpace);
    } else {
      assert (s + " ")[1..] == s[1..] + " ";
      if IsSpace(s[0]) {
        LStripPadded(s[1..]);
      }
    }
  }

  lemma RStripSpace(t: string)
    ensures RStripBy(t + " ", IsSpace) == RStripBy(t, IsSpace)
  {
    assert (t + " ")[..|t|] == t;
  }
}
