/**
 * The few Python built-ins the application leans on, stated once so that the
 * other modules can say "as Python does it": optional values, exceptions,
 * list positions (negative positions count from the end), `str` of a
 * non-negative integer, `', '.join`, the ordering of `str` values and `max`.
 */
module Py {

  datatype Option<+T> = None | Some(value: T)

  /** The exception classes that the modelled code raises or lets escape. */
  datatype Exception = IndexError | KeyError | LookupError | ValueError | AttributeError | TypeError

  /** What a Python call does: it returns a value or it raises. */
  datatype Answer<+T> = Returns(value: T) | Raises(error: Exception)

  /** A call that returns `None` returns the one value there is. */
  lemma ReturnsUnit(a: Answer<()>)
    requires a.Returns?
    ensures a == Returns(())
  {
    var v: () := a.value;
    match v { case () => }
  }

  /**
   * The element that `xs[i]` reads in a list of length `n`, or None when
   * Python raises IndexError.
   */
  function Position(n: nat, i: int): (r: Option<nat>)
    ensures r.Some? <==> -(n as int) <= i < n
    ensures r.Some? ==> r.value < n && (r.value == i || r.value == n + i)
    ensures 0 <= i < n ==> r == Some(i)
  {
    if 0 <= i < n then Some(i) else if -(n as int) <= i < 0 then Some(n + i) else None
  }

  // ---------------------------------------------------------------------------
  // str(n) for a non-negative integer, and reading it back

  predicate IsDigit(c: char) { '0' <= c <= '9' }

  predicate AllDigits(s: string) { forall i :: 0 <= i < |s| ==> IsDigit(s[i]) }

  function DigitChar(d: nat): (c: char)
    requires d < 10
    ensures IsDigit(c) && (c as int) - ('0' as int) == d
  {
    ['0', '1', '2', '3', '4', '5', '6', '7', '8', '9'][d]
  }

  /** Python's `str(n)` (equivalently the `{n}` of an f-string) for `n >= 0`. */
  function NatToString(n: nat): (s: string)
    ensures |s| > 0 && AllDigits(s)
  {
    if n < 10 then [DigitChar(n)] else NatToString(n / 10) + [DigitChar(n % 10)]
  }

  /** `str(n)` has no leading zero: only `str(0)` starts with "0". */
  lemma {:induction false} NatToStringNoLeadingZero(n: nat)
    ensures n > 0 ==> NatToString(n)[0] != '0'
    ensures |NatToString(n)| > 1 ==> NatToString(n)[0] != '0'
  {
    if n >= 10 {
      NatToStringNoLeadingZero(n / 10);
      assert NatToString(n)[0] == NatToString(n / 10)[0];
    }
  }

  /** The number a string of decimal digits denotes. */
  function DigitsValue(s: string): nat
    requires AllDigits(s)
  {
    if s == [] then 0
    else DigitsValue(s[..|s| - 1]) * 10 + ((s[|s| - 1] as int) - ('0' as int))
  }

  /** The longest run of digits at the front of `s`. */
  function LeadingDigits(s: string): (d: string)
    ensures AllDigits(d) && d <= s
    ensures |d| < |s| ==> !IsDigit(s[|d|])
  {
    if s == [] || !IsDigit(s[0]) then [] else [s[0]] + LeadingDigits(s[1..])
  }

  /** Reading back what `str(n)` wrote gives `n`. */
  lemma {:induction false} NatToStringRoundTrip(n: nat)
    ensures DigitsValue(NatToString(n)) == n
  {
    if n >= 10 {
      var s := NatToString(n);
      assert s[..|s| - 1] == NatToString(n / 10);
      NatToStringRoundTrip(n / 10);
    }
  }

  /** The leading digits of a digit string followed by a non-digit are that digit string. */
  lemma {:induction false} LeadingDigitsOfDigits(d: string, rest: string)
    requires AllDigits(d)
    requires rest == [] || !IsDigit(rest[0])
    ensures LeadingDigits(d + rest) == d
  {
    if d != [] {
      assert (d + rest)[1..] == d[1..] + rest;
      LeadingDigitsOfDigits(d[1..], rest);
    }
  }

  /**
   * A number written between a prefix and a text that does not start with a
   * digit can be read back from just after the prefix.
   */
  lemma DigitsReadBack(prefix: string, n: nat, rest: string)
    requires rest == [] || !IsDigit(rest[0])
    ensures DigitsValue(LeadingDigits((prefix + NatToString(n) + rest)[|prefix|..])) == n
  {
    var d := NatToString(n);
    assert (prefix + d + rest)[|prefix|..] == d + rest;
    LeadingDigitsOfDigits(d, rest);
    NatToStringRoundTrip(n);
  }

  lemma TakeSnoc<T>(b: seq<T>, j: nat)
    requires j < |b|
    ensures b[..j + 1] == b[..j] + [b[j]]
  {
  }

  lemma TakeAll<T>(b: seq<T>)
    ensures b[..|b|] == b
  {
  }

  // ---------------------------------------------------------------------------
  // ', '.join(xs)

  /** Python's `sep.join(xs)`. */
  function Join(sep: string, xs: seq<string>): (s: string)
    ensures |xs| == 1 ==> s == xs[0]
    ensures |xs| == 0 ==> s == ""
    ensures |xs| >= 2 ==> |s| >= |xs[0]| + |sep| && s[..|xs[0]| + |sep|] == xs[0] + sep
  {
    if |xs| == 0 then "" else if |xs| == 1 then xs[0] else xs[0] + sep + Join(sep, xs[1..])
  }

  /** Joining one more string puts the separator and that string at the end. */
  lemma {:induction false} JoinSnoc(sep: string, xs: seq<string>, x: string)
    requires xs != []
    ensures Join(sep, xs + [x]) == Join(sep, xs) + sep + x
  {
    var ys := xs + [x];
    assert ys[0] == xs[0] && ys[1..] == xs[1..] + [x];
    if |xs| == 1 {
      assert Join(sep, ys[1..]) == x;
    } else {
      JoinSnoc(sep, xs[1..], x);
      var h, t := xs[0] + sep, Join(sep, xs[1..]);
      assert Join(sep, ys) == h + (t + sep + x);
      assert h + (t + sep + x) == (h + t) + sep + x;
    }
  }

  /** A two-entry `loc` is joined as its two entries around the separator. */
  lemma JoinPair(sep: string, a: string, b: string)
    ensures Join(sep, [a, b]) == a + sep + b
  {
    JoinSnoc(sep, [a], b);
    assert [a] + [b] == [a, b];
  }

  // ---------------------------------------------------------------------------
  // Ordering of str values and max()

  /** Python's `a < b` on `str`: lexicographic by code point, a proper prefix first. */
  predicate StrBelow(a: string, b: string)
  {
    if a == [] then b != []
    else if b == [] then false
    else if a[0] == b[0] then StrBelow(a[1..], b[1..])
    else a[0] < b[0]
  }

  lemma {:induction false} StrBelowTransitive(a: string, b: string, c: string)
    requires StrBelow(a, b) && StrBelow(b, c)
    ensures StrBelow(a, c)
  {
    if a != [] && b != [] && c != [] && a[0] == b[0] && b[0] == c[0] {
      StrBelowTransitive(a[1..], b[1..], c[1..]);
    }
  }

  lemma {:induction false} StrBelowIrreflexive(a: string)
    ensures !StrBelow(a, a)
  {
    if a != [] {
      StrBelowIrreflexive(a[1..]);
    }
  }

  lemma {:induction false} StrBelowTotal(a: string, b: string)
    ensures a == b || StrBelow(a, b) || StrBelow(b, a)
  {
    if a != [] && b != [] && a[0] == b[0] {
      StrBelowTotal(a[1..], b[1..]);
      if a[1..] == b[1..] {
        assert a == [a[0]] + a[1..] && b == [b[0]] + b[1..];
      }
    }
  }

  /** `m` is a greatest element of `xs`: it is in `xs` and nothing in `xs` is above it. */
  predicate IsGreatest(m: string, xs: seq<string>)
  {
    m in xs && forall x :: x in xs ==> !StrBelow(m, x)
  }

  /** A list of strings has at most one greatest element. */
  lemma GreatestUnique(m: string, m': string, xs: seq<string>)
    requires IsGreatest(m, xs) && IsGreatest(m', xs)
    ensures m == m'
  {
    StrBelowTotal(m, m');
  }

  /**
   * Python's `max(xs)` on a non-empty list of `str`: it keeps the running
   * maximum and replaces it only by a strictly greater element.
   */
  function MaxStr(xs: seq<string>): (m: string)
    requires |xs| > 0
    ensures IsGreatest(m, xs)
  {
    if |xs| == 1 then
      StrBelowIrreflexive(xs[0]);
      xs[0]
    else
      var m := MaxStr(xs[..|xs| - 1]);
      var last := xs[|xs| - 1];
      assert forall x :: x in xs ==> x in xs[..|xs| - 1] || x == last;
      if StrBelow(m, last) then
        StrBelowIrreflexive(last);
        assert forall x :: x in xs[..|xs| - 1] ==> !StrBelow(last, x) by {
          forall x | x in xs[..|xs| - 1] && StrBelow(last, x) ensures false {
            StrBelowTransitive(m, last, x);
          }
        }
        last
      else m
  }
}
