/**
 * The few behaviours of Python's built-in types that the launcher script relies on:
 * optional values, list indexing (negative indices count from the end, anything else
 * raises IndexError), `str.split` with a one-character separator, and the decimal
 * decimal text that `str` writes for an integer and `float` reads back.
 */
module Py {

  datatype Option<+T> = None | Some(value: T)

  /** The exceptions the script can raise and never catches. */
  datatype PyError = KeyError | IndexError | ValueError

  /** `s[i]` on a Python list; `None` stands for the IndexError. */
  function Index<T>(s: seq<T>, i: int): (r: Option<T>)
    ensures r.Some? <==> -|s| <= i < |s|
  {
    if 0 <= i < |s| then Some(s[i])
    else if -|s| <= i < 0 then Some(s[|s| + i])
    else None
  }

  /** A negative index names the same element as that index plus the length. */
  lemma IndexFromEnd<T>(s: seq<T>, i: int)
    requires 0 <= i < |s|
    ensures Index(s, i - |s|) == Index(s, i) == Some(s[i])
  {
  }

  // ---------------------------------------------------------------------------
  // str.split(sep) and its inverse sep.join(parts)

  /** `s.split(sep)`: the maximal separator-free pieces between separators, always at least one. */
  function Split(s: string, sep: char): (parts: seq<string>)
    ensures |parts| >= 1
    ensures forall k :: 0 <= k < |parts| ==> sep !in parts[k]
    ensures sep in s <==> |parts| >= 2
    decreases |s|
  {
    if s == [] then [""]
    else
      var rest := Split(s[1..], sep);
      assert s == [s[0]] + s[1..];
      if s[0] == sep then [""] + rest
      else [[s[0]] + rest[0]] + rest[1..]
  }

  /** `sep.join(parts)`. */
  function Join(parts: seq<string>, sep: char): string
    requires |parts| >= 1
    decreases |parts|
  {
    if |parts| == 1 then parts[0] else parts[0] + [sep] + Join(parts[1..], sep)
  }

  /** Splitting loses nothing: joining the pieces with the separator gives the text back. */
  lemma {:induction false} JoinSplit(s: string, sep: char)
    ensures Join(Split(s, sep), sep) == s
    decreases |s|
  {
    if s != [] {
      var rest := Split(s[1..], sep);
      JoinSplit(s[1..], sep);
      if s[0] == sep {
        assert Split(s, sep) == [""] + rest;
        assert ([""] + rest)[1..] == rest;
      } else {
        var parts := Split(s, sep);
        assert parts == [[s[0]] + rest[0]] + rest[1..];
        if |rest| == 1 {
          assert Join(parts, sep) == [s[0]] + rest[0];
        } else {
          assert parts[1..] == rest[1..];
          assert Join(rest, sep) == rest[0] + [sep] + Join(rest[1..], sep);
          assert Join(parts, sep) == [s[0]] + rest[0] + [sep] + Join(rest[1..], sep);
        }
      }
    }
  }

  /** A separator-free prefix is glued onto the first piece of what follows it. */
  lemma {:induction false} SplitPrefix(x: string, y: string, sep: char)
    requires sep !in x
    ensures Split(x + y, sep) == [x + Split(y, sep)[0]] + Split(y, sep)[1..]
    decreases |x|
  {
    if x != [] {
      SplitPrefix(x[1..], y, sep);
      assert (x + y)[1..] == x[1..] + y;
      assert (x + y)[0] == x[0];
      assert [x[0]] + (x[1..] + Split(y, sep)[0]) == x + Split(y, sep)[0];
    } else {
      var parts := Split(y, sep);
      assert x + y == y && x + parts[0] == parts[0];
      assert [parts[0]] + parts[1..] == parts;
    }
  }

  /** Text without the separator splits into itself alone. */
  lemma SplitNoSeparator(s: string, sep: char)
    requires sep !in s
    ensures Split(s, sep) == [s]
  {
    SplitPrefix(s, "", sep);
    assert s + "" == s;
  }

  /** Text cut at its first separator splits into the part before it and the pieces of the rest. */
  lemma SplitAtFirst(x: string, y: string, sep: char)
    requires sep !in x
    ensures Split(x + [sep] + y, sep) == [x] + Split(y, sep)
  {
    SplitPrefix(x, [sep] + y, sep);
    assert x + [sep] + y == x + ([sep] + y);
    assert Split([sep] + y, sep) == [""] + Split(y, sep);
    assert x + "" == x;
  }

  // ---------------------------------------------------------------------------
  // Numbers as decimal text: what `str` writes and `float` reads back

  predicate IsDigit(c: char) { '0' <= c <= '9' }

  predicate AllDigits(s: string) { forall i :: 0 <= i < |s| ==> IsDigit(s[i]) }

  function DigitChar(d: nat): (c: char)
    requires d < 10
    ensures IsDigit(c) && c as int - '0' as int == d
  {
    ('0' as int + d) as char
  }

  /** The value of a string of decimal digits, most significant first. */
  function DigitsValue(s: string): nat
    requires AllDigits(s)
    decreases |s|
  {
    if s == [] then 0 else DigitsValue(s[..|s| - 1]) * 10 + (s[|s| - 1] as int - '0' as int)
  }

  /** The shortest decimal text of a natural number. */
  function NatToString(n: nat): (s: string)
    ensures |s| >= 1 && AllDigits(s)
    decreases n
  {
    if n < 10 then [DigitChar(n)] else NatToString(n / 10) + [DigitChar(n % 10)]
  }

  /** `str(n)`: a minus sign before the digits of a negative number. */
  function IntToString(n: int): (s: string)
    ensures |s| >= 1 && (s[0] == '-' <==> n < 0)
    ensures AllDigits(s[1..])
  {
    if n < 0 then "-" + NatToString(-n) else NatToString(n)
  }

  /** The value of the digits after a decimal point: each digit weighs a tenth of the one before it. */
  function Fraction(f: string): (v: real)
    requires AllDigits(f)
    ensures 0.0 <= v < 1.0
    decreases |f|
  {
    if f == [] then 0.0 else ((f[0] as int - '0' as int) as real + Fraction(f[1..])) / 10.0
  }

  /** The position of the first decimal point, if there is one. */
  function PointIndex(s: string): (r: Option<nat>)
    ensures r.None? <==> '.' !in s
    ensures r.Some? ==> r.value < |s| && s[r.value] == '.' && '.' !in s[..r.value]
    decreases |s|
  {
    if s == [] then None
    else if s[0] == '.' then Some(0)
    else
      match PointIndex(s[1..])
      case None => None
      case Some(k) =>
        assert s[..k + 1] == [s[0]] + s[1..][..k];
        Some(k + 1)
  }

  /**
   * The number `float` reads from decimal text without a sign: digits with at most one
   * decimal point among them, and at least one digit in all. `None` stands for the ValueError.
   */
  function UnsignedDecimal(s: string): (r: Option<real>)
    ensures r.Some? ==> r.value >= 0.0
  {
    match PointIndex(s)
    case None => if |s| >= 1 && AllDigits(s) then Some(DigitsValue(s) as real) else None
    case Some(k) =>
      if |s| >= 2 && AllDigits(s[..k]) && AllDigits(s[k + 1..]) then Some(DigitsValue(s[..k]) as real + Fraction(s[k + 1..]))
      else None
  }

  /** `float(s)` on plain decimal text: an optional minus sign before an unsigned decimal. */
  function ParseFloat(s: string): (r: Option<real>)
    ensures r.Some? && (s == [] || s[0] != '-') ==> r.value >= 0.0
    ensures r.Some? && s != [] && s[0] == '-' ==> r.value <= 0.0
  {
    if |s| >= 1 && s[0] == '-' then
      match UnsignedDecimal(s[1..])
      case None => None
      case Some(v) => Some(-v)
    else UnsignedDecimal(s)
  }

  lemma DigitsHaveNoPoint(w: string)
    requires AllDigits(w)
    ensures '.' !in w
  {
    forall i | 0 <= i < |w| ensures w[i] != '.' { assert IsDigit(w[i]); }
  }

  /** A minus sign negates what the rest of the text reads as. */
  lemma ReadNegated(t: string, v: real)
    requires UnsignedDecimal(t) == Some(v)
    ensures ParseFloat("-" + t) == Some(-v)
  {
    var m := "-" + t;
    assert m[0] == '-' && m[1..] == t;
  }

  /** Unsigned text holds only digits and at most one point, and at least one digit. */
  lemma UnsignedShape(t: string)
    requires UnsignedDecimal(t).Some?
    ensures forall i :: 0 <= i < |t| ==> IsDigit(t[i]) || t[i] == '.'
    ensures forall i, j :: 0 <= i < j < |t| && t[i] == '.' ==> t[j] != '.'
    ensures |t| >= 1 && (IsDigit(t[0]) || IsDigit(t[1]))
  {
    match PointIndex(t)
    case None =>
    case Some(k) =>
      forall i | 0 <= i < |t| && i != k
        ensures IsDigit(t[i])
      {
        if i < k {
          assert t[i] == t[..k][i];
        } else {
          assert t[i] == t[k + 1..][i - k - 1];
        }
      }
  }

  /**
   * Only plain decimal text is read: after an optional leading minus there are only digits
   * and at most one decimal point, and at least one digit.
   */
  lemma ParseFloatShape(s: string)
    requires ParseFloat(s).Some?
    ensures forall i :: 0 <= i < |s| ==> IsDigit(s[i]) || s[i] == '.' || (i == 0 && s[i] == '-')
    ensures forall i, j :: 0 <= i < j < |s| && s[i] == '.' ==> s[j] != '.'
    ensures exists i :: 0 <= i < |s| && IsDigit(s[i])
  {
    var k := if |s| >= 1 && s[0] == '-' then 1 else 0;
    var t := s[k..];
    assert UnsignedDecimal(t).Some?;
    UnsignedShape(t);
    assert forall i :: k <= i < |s| ==> s[i] == t[i - k];
    if IsDigit(t[0]) {
      assert IsDigit(s[k]);
    } else {
      assert IsDigit(s[k + 1]);
    }
  }

  lemma UnsignedWhole(w: string)
    requires |w| >= 1 && AllDigits(w)
    ensures UnsignedDecimal(w) == Some(DigitsValue(w) as real)
  {
    DigitsHaveNoPoint(w);
  }

  /** Whole-number text reads as that number, with or without a minus sign. */
  lemma ParseFloatWhole(w: string)
    requires |w| >= 1 && AllDigits(w)
    ensures ParseFloat(w) == Some(DigitsValue(w) as real)
    ensures ParseFloat("-" + w) == Some(-(DigitsValue(w) as real))
  {
    UnsignedWhole(w);
    assert IsDigit(w[0]);
    ReadNegated(w, DigitsValue(w) as real);
  }

  lemma PointAt(s: string, k: nat)
    requires k < |s| && s[k] == '.' && AllDigits(s[..k])
    ensures PointIndex(s) == Some(k)
  {
    DigitsHaveNoPoint(s[..k]);
  }

  lemma UnsignedWithPoint(s: string, k: nat)
    requires k < |s| && s[k] == '.' && AllDigits(s[..k]) && AllDigits(s[k + 1..]) && |s| >= 2
    ensures UnsignedDecimal(s) == Some(DigitsValue(s[..k]) as real + Fraction(s[k + 1..]))
  {
    PointAt(s, k);
  }

  /** Unsigned text that does not start with a minus sign reads the same through `float`. */
  lemma ReadPlain(t: string, v: real)
    requires UnsignedDecimal(t) == Some(v) && (t == [] || t[0] != '-')
    ensures ParseFloat(t) == Some(v)
  {
  }

  /**
   * Text with one decimal point reads as the whole part before it plus the digits after it,
   * each a tenth of the one before, with or without a minus sign.
   */
  lemma ParseFloatFraction(s: string, k: nat)
    requires k < |s| && s[k] == '.' && AllDigits(s[..k]) && AllDigits(s[k + 1..]) && |s| >= 2
    ensures var v := DigitsValue(s[..k]) as real + Fraction(s[k + 1..]);
      ParseFloat(s) == Some(v) && ParseFloat("-" + s) == Some(-v)
  {
    var v := DigitsValue(s[..k]) as real + Fraction(s[k + 1..]);
    UnsignedWithPoint(s, k);
    assert s[0] != '-' by {
      if k >= 1 { assert s[0] == s[..k][0]; }
    }
    ReadPlain(s, v);
    ReadNegated(s, v);
  }

  lemma {:induction false} NatToStringValue(n: nat)
    ensures DigitsValue(NatToString(n)) == n
    decreases n
  {
    var s := NatToString(n);
    if n >= 10 {
      NatToStringValue(n / 10);
      assert s[..|s| - 1] == NatToString(n / 10);
    }
  }

  /** Reading back what `str` writes for an integer gives the same number. */
  lemma ParseFloatToString(n: int)
    ensures ParseFloat(IntToString(n)) == Some(n as real)
  {
    var m: nat := if n < 0 then -n else n;
    var w := NatToString(m);
    NatToStringValue(m);
    ParseFloatWhole(w);
    assert DigitsValue(w) as real == m as real;
    if n < 0 {
      assert IntToString(n) == "-" + w;
    } else {
      assert IntToString(n) == w;
    }
  }
}
